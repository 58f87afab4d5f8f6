/**
 * String operations of Python's built-in `str` that the modelled code relies on:
 * `sep.join`, `str(int)`, the code-point ordering `<`/`<=`, `sorted` and `str.replace`.
 */
module Strings {

  // ---------------------------------------------------------------------------
  // sep.join(parts)
  // ---------------------------------------------------------------------------

  /** Python's `sep.join(parts)`. */
  function Join(parts: seq<string>, sep: string): string
  {
    if |parts| == 0 then ""
    else if |parts| == 1 then parts[0]
    else parts[0] + sep + Join(parts[1..], sep)
  }

  // ---------------------------------------------------------------------------
  // str(n) for integers
  // ---------------------------------------------------------------------------

  predicate IsDigit(c: char)
  {
    '0' <= c <= '9'
  }

  predicate AllDigits(s: string)
  {
    forall i :: 0 <= i < |s| ==> IsDigit(s[i])
  }

  function DigitChar(d: nat): (c: char)
    requires d < 10
    ensures IsDigit(c) && DigitValue(c) == d
  {
    (('0' as int) + d) as char
  }

  function DigitValue(c: char): nat
    requires IsDigit(c)
  {
    (c as int) - ('0' as int)
  }

  /** The decimal text of `n`, as Python's `str(n)` writes a non-negative int. */
  function NatToString(n: nat): (r: string)
    ensures |r| >= 1 && AllDigits(r)
    ensures r[0] == '0' ==> n == 0 && |r| == 1
  {
    if n < 10 then [DigitChar(n)] else NatToString(n / 10) + [DigitChar(n % 10)]
  }

  /** The value of a string of decimal digits: the reading direction of `int(s)`. */
  function DecimalValue(s: string): nat
    requires AllDigits(s)
  {
    if s == [] then 0 else 10 * DecimalValue(s[..|s| - 1]) + DigitValue(s[|s| - 1])
  }

  /** Reading back what `str(n)` wrote gives `n`. */
  lemma {:induction false} NatToStringRoundTrip(n: nat)
    ensures DecimalValue(NatToString(n)) == n
  {
    var r := NatToString(n);
    if n >= 10 {
      NatToStringRoundTrip(n / 10);
      assert r[..|r| - 1] == NatToString(n / 10);
    }
  }

  /** Different numbers have different decimal texts. */
  lemma NatToStringInjective(a: nat, b: nat)
    requires NatToString(a) == NatToString(b)
    ensures a == b
  {
    NatToStringRoundTrip(a);
    NatToStringRoundTrip(b);
  }

  /** Python's `str(i)` for any int: a '-' sign, then the digits of the magnitude. */
  function IntToString(i: int): (r: string)
    ensures |r| >= 1
    ensures (r[0] == '-') == (i < 0)
    ensures i >= 0 ==> r == NatToString(i)
    ensures i < 0 ==> r[1..] == NatToString(-i)
  {
    if i < 0 then "-" + NatToString(-i) else NatToString(i)
  }

  // ---------------------------------------------------------------------------
  // The code-point ordering of str: a < b and a <= b
  // ---------------------------------------------------------------------------

  /**
   * `a` and `b` agree before position `k`, and there `a` either has ended while `b`
   * goes on, or has the smaller code point.
   */
  predicate DiffersAt(a: string, b: string, k: int)
  {
    0 <= k <= |a| && k < |b| && a[..k] == b[..k] && (k == |a| || a[k] < b[k])
  }

  /** Python's `a < b` on strings: lexicographic by code point, a proper prefix first. */
  predicate Less(a: string, b: string): (r: bool)
    ensures r <==> exists k :: DiffersAt(a, b, k)
  {
    if a == [] then
      assert b != [] ==> DiffersAt(a, b, 0);
      b != []
    else if b == [] then
      false
    else if a[0] != b[0] then
      assert a[0] < b[0] ==> DiffersAt(a, b, 0);
      assert forall k :: DiffersAt(a, b, k) ==> k == 0;
      a[0] < b[0]
    else
      var r := Less(a[1..], b[1..]);
      assert r ==> exists k :: DiffersAt(a, b, k) by {
        if r {
          var k :| DiffersAt(a[1..], b[1..], k);
          assert a[..k + 1] == [a[0]] + a[1..][..k];
          assert b[..k + 1] == [b[0]] + b[1..][..k];
          assert DiffersAt(a, b, k + 1);
        }
      }
      assert (exists k :: DiffersAt(a, b, k)) ==> r by {
        if exists k :: DiffersAt(a, b, k) {
          var k :| DiffersAt(a, b, k);
          assert k > 0;
          assert a[1..][..k - 1] == a[..k][1..];
          assert b[1..][..k - 1] == b[..k][1..];
          assert DiffersAt(a[1..], b[1..], k - 1);
        }
      }
      r
  }

  /** Python's `a <= b` on strings: equal, or smaller at the first difference. */
  predicate LessEq(a: string, b: string): (r: bool)
    ensures r <==> a == b || exists k :: DiffersAt(a, b, k)
  {
    a == b || Less(a, b)
  }

  lemma {:induction false} LessIrreflexive(a: string)
    ensures !Less(a, a)
  {
    if a != [] {
      LessIrreflexive(a[1..]);
    }
  }

  lemma {:induction false} LessAsymmetric(a: string, b: string)
    requires Less(a, b)
    ensures !Less(b, a)
  {
    if a != [] && b != [] && a[0] == b[0] {
      LessAsymmetric(a[1..], b[1..]);
    }
  }

  lemma {:induction false} LessTransitive(a: string, b: string, c: string)
    requires Less(a, b) && Less(b, c)
    ensures Less(a, c)
  {
    if a != [] && b != [] && c != [] && a[0] == b[0] && b[0] == c[0] {
      LessTransitive(a[1..], b[1..], c[1..]);
    }
  }

  /** Any two different strings are ordered one way or the other. */
  lemma {:induction false} LessTotal(a: string, b: string)
    requires a != b
    ensures Less(a, b) || Less(b, a)
  {
    if a != [] && b != [] && a[0] == b[0] {
      assert a == [a[0]] + a[1..] && b == [b[0]] + b[1..];
      LessTotal(a[1..], b[1..]);
    }
  }

  lemma LessEqTransitive(a: string, b: string, c: string)
    requires LessEq(a, b) && LessEq(b, c)
    ensures LessEq(a, c)
  {
    if a != b && b != c {
      LessTransitive(a, b, c);
    }
  }

  // ---------------------------------------------------------------------------
  // sorted(list_of_str)
  // ---------------------------------------------------------------------------

  predicate Sorted(s: seq<string>)
  {
    forall i :: 0 <= i < |s| - 1 ==> LessEq(s[i], s[i + 1])
  }

  /** Inserts `x` before the first element it does not exceed. */
  function Insert(x: string, s: seq<string>): (r: seq<string>)
    requires Sorted(s)
    ensures Sorted(r)
    ensures multiset(r) == multiset(s) + multiset{x}
    ensures r[0] == x || (s != [] && r[0] == s[0])
  {
    if s == [] then [x]
    else if LessEq(x, s[0]) then [x] + s
    else
      LessTotal(x, s[0]);
      assert s == [s[0]] + s[1..];
      [s[0]] + Insert(x, s[1..])
  }

  /** Python's `sorted(names)`: the ascending permutation of the names. */
  function SortStrings(s: seq<string>): (r: seq<string>)
    ensures Sorted(r)
    ensures multiset(r) == multiset(s)
  {
    if s == [] then []
    else
      assert s == [s[0]] + s[1..];
      Insert(s[0], SortStrings(s[1..]))
  }

  // ---------------------------------------------------------------------------
  // s.replace(pat, rep)
  // ---------------------------------------------------------------------------

  /** Python's `s.replace(pat, rep)` for a non-empty `pat`: left to right, non-overlapping. */
  function ReplaceAll(s: string, pat: string, rep: string): (r: string)
    requires pat != []
    ensures rep == pat ==> r == s
    ensures |rep| == |pat| ==> |r| == |s|
    decreases |s|
  {
    if |s| < |pat| then s
    else if s[..|pat|] == pat then rep + ReplaceAll(s[|pat|..], pat, rep)
    else [s[0]] + ReplaceAll(s[1..], pat, rep)
  }

  /**
   * `a` holds no place where `pat` could begin: every occurrence of pat's first
   * character is followed, inside `a`, by a character other than pat's second.
   */
  predicate NoMatchStarts(a: string, pat: string)
    requires |pat| >= 2
  {
    forall i :: 0 <= i < |a| && a[i] == pat[0] ==> i + 1 < |a| && a[i + 1] != pat[1]
  }

  /** A stretch in which no occurrence can begin is copied through unchanged. */
  lemma {:induction false} ReplaceSkips(a: string, b: string, pat: string, rep: string)
    requires |pat| >= 2 && NoMatchStarts(a, pat)
    ensures ReplaceAll(a + b, pat, rep) == a + ReplaceAll(b, pat, rep)
  {
    if a == [] {
      assert a + b == b;
    } else if |a + b| >= |pat| {
      CopyFirst(a, b, pat, rep);
      NoMatchStartsTail(a, pat);
      ReplaceSkips(a[1..], b, pat, rep);
      assert a == [a[0]] + a[1..];
    } else {
      assert ReplaceAll(b, pat, rep) == b;
    }
  }

  /** The first character of such a stretch is copied, and the scan moves on by one. */
  lemma CopyFirst(a: string, b: string, pat: string, rep: string)
    requires |pat| >= 2 && a != [] && NoMatchStarts(a, pat) && |a + b| >= |pat|
    ensures ReplaceAll(a + b, pat, rep) == [a[0]] + ReplaceAll(a[1..] + b, pat, rep)
  {
    var s := a + b;
    FrontIsNoMatch(a, b, pat);
    assert s[1..] == a[1..] + b;
  }

  /** A stretch in which no occurrence can begin does not begin with one. */
  lemma FrontIsNoMatch(a: string, b: string, pat: string)
    requires |pat| >= 2 && a != [] && NoMatchStarts(a, pat) && |a + b| >= |pat|
    ensures (a + b)[..|pat|] != pat
  {
    var s := a + b;
    if a[0] == pat[0] {
      assert s[1] == a[1];
      assert s[..|pat|][1] != pat[1];
    } else {
      assert s[..|pat|][0] != pat[0];
    }
  }

  /** Dropping the first character keeps a stretch free of match starts. */
  lemma NoMatchStartsTail(a: string, pat: string)
    requires |pat| >= 2 && a != [] && NoMatchStarts(a, pat)
    ensures NoMatchStarts(a[1..], pat)
  {
    forall i | 0 <= i < |a[1..]| && a[1..][i] == pat[0]
      ensures i + 1 < |a[1..]| && a[1..][i + 1] != pat[1]
    {
      assert a[i + 1] == pat[0];
    }
  }

  /** An occurrence at the front is replaced, and scanning resumes after it. */
  lemma ReplaceHit(b: string, pat: string, rep: string)
    requires pat != []
    ensures ReplaceAll(pat + b, pat, rep) == rep + ReplaceAll(b, pat, rep)
  {
    assert (pat + b)[..|pat|] == pat;
    assert (pat + b)[|pat|..] == b;
  }

  /** A string without pat's first character holds no place where pat could begin. */
  lemma NoMatchStartsWithout(a: string, pat: string)
    requires |pat| >= 2 && pat[0] !in a
    ensures NoMatchStarts(a, pat)
  {
    forall i | 0 <= i < |a| ensures a[i] != pat[0] {
      assert a[i] in a;
    }
  }
}
