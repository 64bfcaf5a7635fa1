/**
 * Small string and option helpers shared by the other modules: the parts of
 * Python's `str` API that the modelled code relies on (prefix tests,
 * `split` with a `maxsplit` bound, `join`, decimal formatting with `str(n)`,
 * and `isdigit`/`int` on ASCII digit strings).
 */
module Strings {

  datatype Option<+T> = None | Some(value: T)

  /** Python's `s.startswith(p)`. */
  predicate StartsWith(s: string, p: string) {
    |p| <= |s| && s[..|p|] == p
  }

  /** Regrouping a concatenation, which the solver finds slowly on its own. */
  lemma ConcatAssoc<T>(a: seq<T>, b: seq<T>, c: seq<T>)
    ensures (a + b) + c == a + (b + c)
  {
  }

  /** Index of the first occurrence of `c` in `s`. */
  function IndexOf(s: string, c: char): (i: nat)
    requires c in s
    ensures i < |s| && s[i] == c && c !in s[..i]
  {
    if s[0] == c then 0 else 1 + IndexOf(s[1..], c)
  }

  /** Python's `sep.join(parts)` for a one-character separator. */
  function JoinWith(sep: char, parts: seq<string>): string
  {
    if |parts| == 0 then ""
    else if |parts| == 1 then parts[0]
    else parts[0] + [sep] + JoinWith(sep, parts[1..])
  }

  /**
   * Python's `s.split(sep, maxsplit)` for a one-character separator: split
   * at the first `maxsplit` occurrences of `sep` from the left.
   */
  function Split(s: string, sep: char, maxsplit: nat): (parts: seq<string>)
    ensures 1 <= |parts| <= maxsplit + 1
    ensures forall i :: 0 <= i < |parts| - 1 ==> sep !in parts[i]
    ensures |parts| < maxsplit + 1 ==> sep !in parts[|parts| - 1]
    decreases maxsplit
  {
    if maxsplit == 0 || sep !in s then [s]
    else
      var k := IndexOf(s, sep);
      assert s == s[..k] + [sep] + s[k + 1..];
      [s[..k]] + Split(s[k + 1..], sep, maxsplit - 1)
  }

  /** Joining the parts of a split with the separator gives the string back. */
  lemma {:induction false} JoinSplit(s: string, sep: char, maxsplit: nat)
    ensures JoinWith(sep, Split(s, sep, maxsplit)) == s
    decreases maxsplit, 0
  {
    if maxsplit == 0 || sep !in s {
      assert Split(s, sep, maxsplit) == [s];
      assert JoinWith(sep, [s]) == s;
    } else {
      var k := IndexOf(s, sep);
      var head, tail := s[..k], s[k + 1..];
      var rest := SplitFirst(s, sep, maxsplit, k);
      JoinSplitOf(tail, sep, maxsplit - 1, rest);
      JoinCons(sep, head, tail, rest);
      Reassemble(s, k);
    }
  }

  /** `JoinSplit` for a list of parts already known to be the split of `s`. */
  lemma {:induction false} JoinSplitOf(s: string, sep: char, maxsplit: nat, parts: seq<string>)
    requires parts == Split(s, sep, maxsplit)
    ensures JoinWith(sep, parts) == s
    decreases maxsplit, 1
  {
    JoinSplit(s, sep, maxsplit);
  }

  /** The first split happens at the first separator `k`; `rest` is the split of what follows it. */
  lemma SplitFirst(s: string, sep: char, maxsplit: nat, k: nat) returns (rest: seq<string>)
    requires maxsplit > 0 && k < |s| && s[k] == sep && sep !in s[..k]
    ensures rest == Split(s[k + 1..], sep, maxsplit - 1) && rest != []
    ensures Split(s, sep, maxsplit) == [s[..k]] + rest
  {
    assert s == s[..k] + [sep] + s[k + 1..];
    SplitAt(s[..k], sep, s[k + 1..], maxsplit);
    rest := Split(s[k + 1..], sep, maxsplit - 1);
  }

  /** A string is the part before position `k`, the character at `k`, and the part after it. */
  lemma Reassemble(s: string, k: nat)
    requires k < |s|
    ensures s[..k] + [s[k]] + s[k + 1..] == s
  {
  }

  /** Joining `head` before parts that join to `tail`. */
  lemma JoinCons(sep: char, head: string, tail: string, rest: seq<string>)
    requires rest != [] && JoinWith(sep, rest) == tail
    ensures JoinWith(sep, [head] + rest) == head + [sep] + tail
  {
    JoinWithCons(sep, head, rest);
  }

  lemma JoinWithCons(sep: char, first: string, rest: seq<string>)
    requires rest != []
    ensures JoinWith(sep, [first] + rest) == first + [sep] + JoinWith(sep, rest)
  {
    assert ([first] + rest)[1..] == rest;
  }

  /** Splitting `a + sep + b` when `a` holds no separator peels off `a`. */
  lemma SplitAt(a: string, sep: char, b: string, maxsplit: nat)
    requires sep !in a && maxsplit >= 1
    ensures Split(a + [sep] + b, sep, maxsplit) == [a] + Split(b, sep, maxsplit - 1)
  {
    var s := a + [sep] + b;
    assert s[|a|] == sep;
    var k := IndexOf(s, sep);
    assert k == |a|;
    assert s[..k] == a;
    assert s[k + 1..] == b;
  }

  /** `split(sep, 2)` of `a sep b sep c` when `a` and `b` hold no separator. */
  lemma SplitThree(a: string, sep: char, b: string, c: string)
    requires sep !in a && sep !in b
    ensures Split(a + [sep] + (b + [sep] + c), sep, 2) == [a, b, c]
  {
    SplitAt(a, sep, b + [sep] + c, 2);
    SplitAt(b, sep, c, 1);
    assert Split(c, sep, 0) == [c];
  }

  /** A string without the separator does not split. */
  lemma SplitWithoutSeparator(s: string, sep: char, maxsplit: nat)
    requires sep !in s
    ensures Split(s, sep, maxsplit) == [s]
    ensures Split(JoinWith(sep, [s]), sep, maxsplit) == [s]
  {
    assert JoinWith(sep, [s]) == s;
  }

  /** One step of `SplitJoin`: the first part of a join splits off, and the rest splits as before. */
  lemma SplitJoinStep(sep: char, parts: seq<string>, maxsplit: nat)
    requires 2 <= |parts| <= maxsplit + 1 && sep !in parts[0]
    requires Split(JoinWith(sep, parts[1..]), sep, maxsplit - 1) == parts[1..]
    ensures Split(JoinWith(sep, parts), sep, maxsplit) == parts
  {
    var rest := parts[1..];
    var tail := JoinWith(sep, rest);
    assert JoinWith(sep, parts) == parts[0] + [sep] + tail;
    SplitAt(parts[0], sep, tail, maxsplit);
    assert parts == [parts[0]] + rest;
  }

  /** `split` undoes `join` when no part holds the separator and the bound allows every cut. */
  lemma {:induction false} SplitJoin(sep: char, parts: seq<string>, maxsplit: nat)
    requires 1 <= |parts| <= maxsplit + 1
    requires forall i :: 0 <= i < |parts| ==> sep !in parts[i]
    ensures Split(JoinWith(sep, parts), sep, maxsplit) == parts
    decreases |parts|
  {
    if |parts| == 1 {
      SplitWithoutSeparator(parts[0], sep, maxsplit);
      assert parts == [parts[0]];
    } else {
      NoSeparatorInTail(sep, parts);
      SplitJoin(sep, parts[1..], maxsplit - 1);
      SplitJoinStep(sep, parts, maxsplit);
    }
  }

  /** The parts after the first hold no separator either. */
  lemma NoSeparatorInTail(sep: char, parts: seq<string>)
    requires parts != [] && forall i :: 0 <= i < |parts| ==> sep !in parts[i]
    ensures forall i :: 0 <= i < |parts[1..]| ==> sep !in parts[1..][i]
  {
    forall i | 0 <= i < |parts[1..]|
      ensures sep !in parts[1..][i]
    {
      assert parts[1..][i] == parts[i + 1];
    }
  }

  predicate IsDigit(c: char) {
    '0' <= c <= '9'
  }

  /** Python's `s.isdigit()` restricted to ASCII digits: non-empty and all digits. */
  predicate IsDigits(s: string) {
    |s| > 0 && forall i :: 0 <= i < |s| ==> IsDigit(s[i])
  }

  function DigitChar(d: nat): (c: char)
    requires d < 10
    ensures IsDigit(c) && c as int - '0' as int == d
  {
    ('0' as int + d) as char
  }

  /** Python's `str(n)` for a non-negative integer. */
  function NatToString(n: nat): (s: string)
    ensures IsDigits(s)
    decreases n
  {
    if n < 10 then [DigitChar(n)] else NatToString(n / 10) + [DigitChar(n % 10)]
  }

  /** Python's `int(s)` on a string of ASCII digits. */
  function DigitsValue(s: string): nat
    requires forall i :: 0 <= i < |s| ==> IsDigit(s[i])
  {
    if s == [] then 0
    else 10 * DigitsValue(s[..|s| - 1]) + DigitValue(s[|s| - 1])
  }

  function DigitValue(c: char): nat
    requires IsDigit(c)
  {
    c as int - '0' as int
  }

  /** `int(str(n)) == n`. */
  lemma {:induction false} DigitsValueOfNatToString(n: nat)
    ensures DigitsValue(NatToString(n)) == n
    decreases n
  {
    var s := NatToString(n);
    if n >= 10 {
      DigitsValueOfNatToString(n / 10);
      assert s[..|s| - 1] == NatToString(n / 10);
    }
  }
}
