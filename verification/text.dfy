/** The few pieces of Go's `strings` and `fmt` packages the client relies on:
    `strings.Replace(s, old, new, -1)`, `strings.Split`, `strings.Join`, and the
    `%d` rendering of an integer. */
module Text {

  /** `sub` occurs in `s` starting at index `i`. */
  predicate OccursAt(s: string, sub: string, i: int)
  {
    0 <= i && i + |sub| <= |s| && s[i..i + |sub|] == sub
  }

  ghost predicate Contains(s: string, sub: string)
  {
    exists i :: OccursAt(s, sub, i)
  }

  /** An occurrence in `s[1..]` is an occurrence in `s` one place later. */
  lemma ShiftOccurrences(s: string, sub: string)
    requires |s| > 0
    ensures forall j :: 0 <= j ==> (OccursAt(s[1..], sub, j) <==> OccursAt(s, sub, j + 1))
  {
    forall j | 0 <= j
      ensures OccursAt(s[1..], sub, j) <==> OccursAt(s, sub, j + 1)
    {
      if 0 <= j && j + |sub| <= |s| - 1 {
        assert s[1..][j..j + |sub|] == s[j + 1..j + 1 + |sub|];
      }
    }
  }

  /** Index of the leftmost occurrence of `sub` in `s`, or -1 (Go's `strings.Index`);
      IndexOfIsLeftmost states what it finds. */
  function IndexOf(s: string, sub: string): (i: int)
    requires |sub| > 0
    ensures -1 <= i && (i >= 0 ==> i + |sub| <= |s|)
    decreases |s|
  {
    if |s| < |sub| then -1
    else if s[..|sub|] == sub then 0
    else
      var k := IndexOf(s[1..], sub);
      if k < 0 then -1 else k + 1
  }

  /** IndexOf finds the leftmost occurrence, and finds none exactly when there is none. */
  lemma {:induction false} IndexOfIsLeftmost(s: string, sub: string)
    requires |sub| > 0
    ensures var i := IndexOf(s, sub);
      && (i >= 0 ==> OccursAt(s, sub, i))
      && (forall j :: 0 <= j && (i < 0 || j < i) ==> !OccursAt(s, sub, j))
    decreases |s|
  {
    if |s| >= |sub| && s[..|sub|] != sub {
      IndexOfIsLeftmost(s[1..], sub);
      ShiftOccurrences(s, sub);
      assert !OccursAt(s, sub, 0);
      forall j | 1 <= j
        ensures OccursAt(s, sub, j) <==> OccursAt(s[1..], sub, j - 1)
      {
        assert OccursAt(s[1..], sub, j - 1) <==> OccursAt(s, sub, (j - 1) + 1);
      }
    }
  }

  /** IndexOf is negative exactly when `sub` does not occur. */
  lemma IndexOfAbsent(s: string, sub: string)
    requires |sub| > 0
    ensures IndexOf(s, sub) < 0 <==> !Contains(s, sub)
  {
    IndexOfIsLeftmost(s, sub);
  }

  /** Go's `strings.Replace(s, target, replacement, -1)`: every non-overlapping
      occurrence of `target`, found left to right, is replaced. */
  function Replace(s: string, target: string, replacement: string): string
    requires |target| > 0
    decreases |s|
  {
    if |s| < |target| then s
    else if s[..|target|] == target then replacement + Replace(s[|target|..], target, replacement)
    else [s[0]] + Replace(s[1..], target, replacement)
  }

  /** Go's `strings.Split(s, sep)` for a non-empty separator. */
  function Split(s: string, sep: string): (parts: seq<string>)
    requires |sep| > 0
    ensures |parts| >= 1
    decreases |s|
  {
    var i := IndexOf(s, sep);
    if i < 0 then [s] else [s[..i]] + Split(s[i + |sep|..], sep)
  }

  /** Go's `strings.Join(parts, sep)`. */
  function Join(parts: seq<string>, sep: string): string
  {
    if |parts| == 0 then ""
    else if |parts| == 1 then parts[0]
    else parts[0] + sep + Join(parts[1..], sep)
  }

  /** Joining a piece in front of a non-empty list puts one separator between. */
  lemma JoinCons(head: string, tail: seq<string>, sep: string)
    requires |tail| >= 1
    ensures Join([head] + tail, sep) == head + sep + Join(tail, sep)
  {
    assert ([head] + tail)[1..] == tail;
  }

  /** Replacing a target that does not occur changes nothing. */
  lemma {:induction false} ReplaceAbsent(s: string, target: string, replacement: string)
    requires |target| > 0
    requires !Contains(s, target)
    ensures Replace(s, target, replacement) == s
    decreases |s|
  {
    if |s| >= |target| {
      assert !OccursAt(s, target, 0);
      ShiftOccurrences(s, target);
      assert !Contains(s[1..], target);
      ReplaceAbsent(s[1..], target, replacement);
      assert [s[0]] + s[1..] == s;
    }
  }

  /** `c` does not occur in `s`. */
  predicate Lacks(s: string, c: char)
  {
    forall k :: 0 <= k < |s| ==> s[k] != c
  }

  lemma LacksConcat(x: string, y: string, c: char)
    requires Lacks(x, c) && Lacks(y, c)
    ensures Lacks(x + y, c)
  {
    forall k | 0 <= k < |x + y|
      ensures (x + y)[k] != c
    {
      if k >= |x| {
        assert (x + y)[k] == y[k - |x|];
      }
    }
  }

  /** A string without the first character of `sub` has no occurrence of it. */
  lemma AbsentFirstChar(s: string, sub: string)
    requires |sub| > 0
    requires Lacks(s, sub[0])
    ensures !Contains(s, sub)
  {
    forall i | 0 <= i && i + |sub| <= |s|
      ensures !OccursAt(s, sub, i)
    {
      assert s[i..i + |sub|][0] == s[i];
    }
  }

  /** A prefix free of the target's first character is copied unchanged. */
  lemma {:induction false} ReplaceAfterFreePrefix(x: string, y: string, target: string, replacement: string)
    requires |target| > 0
    requires Lacks(x, target[0])
    ensures Replace(x + y, target, replacement) == x + Replace(y, target, replacement)
    decreases |x|
  {
    if |x| == 0 {
      assert x + y == y;
    } else {
      var s := x + y;
      if |s| < |target| {
        assert Replace(y, target, replacement) == y;
      } else {
        assert s[..|target|][0] == x[0];
        assert s[1..] == x[1..] + y;
        ReplaceAfterFreePrefix(x[1..], y, target, replacement);
        assert [x[0]] + x[1..] == x;
      }
    }
  }

  /** A leading occurrence of the target is replaced. */
  lemma ReplaceLeading(y: string, target: string, replacement: string)
    requires |target| > 0
    ensures Replace(target + y, target, replacement) == replacement + Replace(y, target, replacement)
  {
    assert (target + y)[..|target|] == target;
    assert (target + y)[|target|..] == y;
  }

  /** A leading character that does not start an occurrence is copied. */
  lemma ReplaceSkip(c: char, y: string, target: string, replacement: string)
    requires |target| > 0
    requires !OccursAt([c] + y, target, 0)
    ensures Replace([c] + y, target, replacement) == [c] + Replace(y, target, replacement)
  {
    var s := [c] + y;
    assert s[1..] == y;
    if |s| < |target| {
      assert Replace(y, target, replacement) == y;
    } else {
      assert s[..|target|] != target;
    }
  }

  /** A string is what precedes an occurrence, the occurrence, and what follows. */
  lemma CutAround(s: string, sub: string, i: int)
    requires OccursAt(s, sub, i)
    ensures s == s[..i] + sub + s[i + |sub|..]
  {
    assert s == s[..i] + s[i..i + |sub|] + s[i + |sub|..];
  }

  /** Split takes the text before the first separator, then splits the rest. */
  lemma SplitFirst(s: string, sep: string)
    requires |sep| > 0
    requires IndexOf(s, sep) >= 0
    ensures var i := IndexOf(s, sep);
      Split(s, sep) == [s[..i]] + Split(s[i + |sep|..], sep)
  {
  }

  /** Joining the pieces of a split gives the original string back. */
  lemma {:induction false} SplitThenJoin(s: string, sep: string)
    requires |sep| > 0
    ensures Join(Split(s, sep), sep) == s
    decreases |s|
  {
    var i := IndexOf(s, sep);
    if i >= 0 {
      IndexOfIsLeftmost(s, sep);
      var head, rest := s[..i], s[i + |sep|..];
      var tail := Split(rest, sep);
      calc {
        Join(Split(s, sep), sep);
      == { SplitFirst(s, sep); }
        Join([head] + tail, sep);
      == { JoinCons(head, tail, sep); }
        head + sep + Join(tail, sep);
      == { SplitThenJoin(rest, sep); }
        head + sep + rest;
      == { CutAround(s, sep, i); }
        s;
      }
    }
  }

  /** No piece of a split contains the separator. */
  lemma {:induction false} SplitPiecesAvoidSeparator(s: string, sep: string)
    requires |sep| > 0
    ensures forall k :: 0 <= k < |Split(s, sep)| ==> !Contains(Split(s, sep)[k], sep)
    decreases |s|
  {
    var i := IndexOf(s, sep);
    IndexOfIsLeftmost(s, sep);
    if i >= 0 {
      var rest := s[i + |sep|..];
      SplitPiecesAvoidSeparator(rest, sep);
      var head := s[..i];
      forall j | OccursAt(head, sep, j)
        ensures false
      {
        assert head[j..j + |sep|] == s[j..j + |sep|];
        assert OccursAt(s, sep, j);
      }
      var parts := Split(s, sep);
      assert parts == [head] + Split(rest, sep);
      forall k | 0 <= k < |parts|
        ensures !Contains(parts[k], sep)
      {
        if k > 0 {
          assert parts[k] == Split(rest, sep)[k - 1];
        }
      }
    }
  }

  /** For a one-character separator, splitting a join of separator-free pieces
      gives the pieces back: `Split` is the only decomposition of its kind. */
  lemma {:induction false} JoinThenSplit(parts: seq<string>, sep: string)
    requires |sep| == 1
    requires |parts| >= 1
    requires forall k :: 0 <= k < |parts| ==> !Contains(parts[k], sep)
    ensures Split(Join(parts, sep), sep) == parts
    decreases |parts|
  {
    var head := parts[0];
    if |parts| == 1 {
      assert Join(parts, sep) == head;
      IndexOfAbsent(head, sep);
    } else {
      var tail := Join(parts[1..], sep);
      var s := head + sep + tail;
      assert Join(parts, sep) == s;
      assert s[|head|..|head| + 1] == sep;
      assert OccursAt(s, sep, |head|);
      var i := IndexOf(s, sep);
      IndexOfIsLeftmost(s, sep);
      forall j | 0 <= j < |head|
        ensures OccursAt(s, sep, j) <==> OccursAt(head, sep, j)
      {
        assert s[j..j + 1] == head[j..j + 1];
      }
      assert i == |head|;
      assert s[..i] == head;
      assert s[i + |sep|..] == tail;
      JoinThenSplit(parts[1..], sep);
      assert [head] + parts[1..] == parts;
    }
  }

  /** The decimal digit for 0 <= d < 10. */
  function Digit(d: int): char
    requires 0 <= d < 10
  {
    "0123456789"[d]
  }

  predicate IsDigit(c: char)
  {
    '0' <= c <= '9'
  }

  /** Go's `%d` rendering of a natural number. */
  function NatToDecimal(n: nat): (s: string)
    ensures |s| >= 1
    ensures forall k :: 0 <= k < |s| ==> IsDigit(s[k])
    decreases n
  {
    if n < 10 then [Digit(n)] else NatToDecimal(n / 10) + [Digit(n % 10)]
  }

  /** Go's `%d` rendering of an integer (a minus sign for a negative one). */
  function IntToDecimal(n: int): string
  {
    if n < 0 then "-" + NatToDecimal(-n) else NatToDecimal(n)
  }

  /** Reads a string of digits back as a number. */
  function ParseDecimal(s: string): nat
    requires forall k :: 0 <= k < |s| ==> IsDigit(s[k])
  {
    if |s| == 0 then 0
    else
      assert IsDigit(s[|s| - 1]);
      ParseDecimal(s[..|s| - 1]) * 10 + (s[|s| - 1] as int - '0' as int)
  }

  /** The decimal rendering reads back as the number, and has no leading zero. */
  lemma {:induction false} DecimalRoundTrip(n: nat)
    ensures ParseDecimal(NatToDecimal(n)) == n
    ensures n > 0 ==> NatToDecimal(n)[0] != '0'
    decreases n
  {
    if n >= 10 {
      DecimalRoundTrip(n / 10);
      var s := NatToDecimal(n);
      assert s[..|s| - 1] == NatToDecimal(n / 10);
      assert s[0] == NatToDecimal(n / 10)[0];
    }
  }
}
