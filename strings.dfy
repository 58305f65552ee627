/** The string operations the library leans on: Go's `strings.Split` with a one-character
    separator, its inverse `strings.Join`, ASCII lower-casing and decimal rendering. */
module Strings {

  /** Index of the first occurrence of `c` in `s`. */
  function IndexOf(s: string, c: char): (i: nat)
    requires c in s
    ensures i < |s| && s[i] == c && c !in s[..i]
  {
    if s[0] == c then 0 else 1 + IndexOf(s[1..], c)
  }

  /** Go's `strings.Split(s, string(sep))`: the pieces between separators, in order.
      There is always at least one piece; `Split("", sep) == [""]`. */
  function Split(s: string, sep: char): (parts: seq<string>)
    ensures |parts| >= 1
    ensures forall i :: 0 <= i < |parts| ==> sep !in parts[i]
    decreases |s|
  {
    if sep in s then
      var i := IndexOf(s, sep);
      [s[..i]] + Split(s[i + 1..], sep)
    else
      [s]
  }

  /** Go's `strings.Join(parts, string(sep))`. */
  function Join(parts: seq<string>, sep: char): string
    requires |parts| >= 1
  {
    if |parts| == 1 then parts[0] else parts[0] + [sep] + Join(parts[1..], sep)
  }

  /** Number of occurrences of `c` in `s`. */
  function Count(s: string, c: char): nat {
    multiset(s)[c]
  }

  /** The first piece of a split is the text before the first separator, or the whole string. */
  lemma SplitHead(s: string, sep: char)
    ensures Split(s, sep)[0] == if sep in s then s[..IndexOf(s, sep)] else s
  {
  }

  /** The pieces after the first are the split of the text after the first separator. */
  lemma SplitTail(s: string, sep: char)
    requires sep in s
    ensures Split(s, sep)[1..] == Split(s[IndexOf(s, sep) + 1..], sep)
  {
  }

  /** Joining the pieces of a split gives back the string. */
  lemma {:induction false} JoinSplit(s: string, sep: char)
    ensures Join(Split(s, sep), sep) == s
    decreases |s|
  {
    if sep in s {
      var i := IndexOf(s, sep);
      var rest := s[i + 1..];
      JoinSplit(rest, sep);
      assert Split(s, sep)[1..] == Split(rest, sep);
      assert s == s[..i] + [sep] + rest;
    }
  }

  /** The first separator of `a + [sep] + b` is the one after `a` when `a` has none. */
  lemma {:induction false} IndexOfAfterPrefix(a: string, sep: char, b: string)
    requires sep !in a
    ensures sep in a + [sep] + b && IndexOf(a + [sep] + b, sep) == |a|
  {
    var s := a + [sep] + b;
    assert s[|a|] == sep;
    if a != [] {
      assert s[1..] == a[1..] + [sep] + b;
      IndexOfAfterPrefix(a[1..], sep, b);
    }
  }

  /** Splitting a join of separator-free pieces gives back the pieces. */
  lemma {:induction false} SplitJoin(parts: seq<string>, sep: char)
    requires |parts| >= 1
    requires forall i :: 0 <= i < |parts| ==> sep !in parts[i]
    ensures Split(Join(parts, sep), sep) == parts
  {
    if |parts| > 1 {
      var rest := Join(parts[1..], sep);
      var s := parts[0] + [sep] + rest;
      assert Join(parts, sep) == s;
      IndexOfAfterPrefix(parts[0], sep, rest);
      assert s[..|parts[0]|] == parts[0];
      assert s[|parts[0]| + 1..] == rest;
      assert forall i :: 0 <= i < |parts[1..]| ==> sep !in parts[1..][i] by {
        forall i | 0 <= i < |parts[1..]|
          ensures sep !in parts[1..][i]
        {
          assert parts[1..][i] == parts[i + 1];
        }
      }
      SplitJoin(parts[1..], sep);
      calc {
        Split(s, sep);
        [s[..|parts[0]|]] + Split(s[|parts[0]| + 1..], sep);
        [parts[0]] + Split(rest, sep);
        [parts[0]] + parts[1..];
        parts;
      }
    }
  }

  /** A split has one piece more than the string has separators. */
  lemma {:induction false} SplitCount(s: string, sep: char)
    ensures |Split(s, sep)| == Count(s, sep) + 1
    decreases |s|
  {
    if sep in s {
      var i := IndexOf(s, sep);
      var rest := s[i + 1..];
      SplitCount(rest, sep);
      assert s == s[..i] + [sep] + rest;
      assert multiset(s) == multiset(s[..i]) + multiset([sep]) + multiset(rest);
      assert multiset(s[..i])[sep] == 0;
    } else {
      assert multiset(s)[sep] == 0;
    }
  }

  /** A join of two or more pieces ends in the separator and the last piece. */
  lemma {:induction false} JoinLast(parts: seq<string>, sep: char)
    requires |parts| >= 2
    ensures Join(parts, sep) == Join(parts[..|parts| - 1], sep) + [sep] + parts[|parts| - 1]
  {
    var init := parts[..|parts| - 1];
    if |parts| == 2 {
      assert init == [parts[0]];
      assert Join(parts[1..], sep) == parts[1];
    } else {
      JoinLast(parts[1..], sep);
      assert parts[1..][..|parts| - 2] == init[1..];
      assert Join(init, sep) == parts[0] + [sep] + Join(init[1..], sep);
    }
  }

  /** The last piece of a split is a suffix of the string, preceded by the separator when
      there is more than one piece. */
  lemma SplitLast(s: string, sep: char)
    ensures var parts := Split(s, sep);
            var last := parts[|parts| - 1];
            |last| <= |s| && s[|s| - |last|..] == last &&
            (|parts| > 1 ==> |last| < |s| && s[|s| - |last| - 1] == sep)
  {
    var parts := Split(s, sep);
    var last := parts[|parts| - 1];
    JoinSplit(s, sep);
    if |parts| > 1 {
      JoinLast(parts, sep);
      var init := Join(parts[..|parts| - 1], sep);
      assert s == init + [sep] + last;
      assert s[|s| - |last|..] == last;
    }
  }

  /** Lower-casing of the ASCII letters; every other character is kept. */
  function AsciiLower(s: string): (r: string)
    ensures |r| == |s|
    ensures forall i :: 0 <= i < |s| ==>
              r[i] == if 'A' <= s[i] <= 'Z' then (s[i] as int + 32) as char else s[i]
  {
    if s == [] then []
    else [if 'A' <= s[0] <= 'Z' then (s[0] as int + 32) as char else s[0]] + AsciiLower(s[1..])
  }

  /** Decimal rendering of a natural number, as `%d` prints it. */
  function NatToString(n: nat): (r: string)
    ensures |r| >= 1
    ensures forall i :: 0 <= i < |r| ==> '0' <= r[i] <= '9'
  {
    if n < 10 then [('0' as int + n) as char]
    else NatToString(n / 10) + [('0' as int + n % 10) as char]
  }
}
