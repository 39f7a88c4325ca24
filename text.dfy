/**
 * Text helpers for the churn-risk report: Python's `str()` of an integer
 * (the decimal form interpolated into the report) and the line structure of
 * multi-line strings (`"\n".join` and `str.split("\n")`), each with its
 * inverse.
 */
module Text {

  predicate IsDigit(c: char) {
    '0' <= c <= '9'
  }

  predicate AllDigits(s: string) {
    forall k :: 0 <= k < |s| ==> IsDigit(s[k])
  }

  predicate NoNewline(s: string) {
    '\n' !in s
  }

  predicate NoNewlines(ls: seq<string>) {
    forall k :: 0 <= k < |ls| ==> NoNewline(ls[k])
  }

  function DigitChar(d: int): (c: char)
    requires 0 <= d < 10
    ensures IsDigit(c) && c as int - '0' as int == d
  {
    ('0' as int + d) as char
  }

  function DigitValue(c: char): (d: nat)
    requires IsDigit(c)
    ensures d < 10 && DigitChar(d) == c
  {
    c as int - '0' as int
  }

  /** Python's `str(n)` for a non-negative integer: shortest decimal form. */
  function Decimal(n: nat): (s: string)
    ensures |s| >= 1 && AllDigits(s)
    ensures s[0] == '0' <==> n == 0
    ensures |s| == 1 <==> n < 10
    decreases n
  {
    if n < 10 then [DigitChar(n)] else Decimal(n / 10) + [DigitChar(n % 10)]
  }

  /** Reads a string of decimal digits back as a number (most significant first). */
  function ParseDecimal(s: string): nat
    requires AllDigits(s)
    decreases |s|
  {
    if |s| == 0 then 0 else 10 * ParseDecimal(s[..|s| - 1]) + DigitValue(s[|s| - 1])
  }

  lemma {:induction false} ParseDecimalOfDecimal(n: nat)
    ensures ParseDecimal(Decimal(n)) == n
    decreases n
  {
    if n >= 10 {
      var s := Decimal(n);
      var front := Decimal(n / 10);
      assert s[..|s| - 1] == front;
      ParseDecimalOfDecimal(n / 10);
    }
  }

  /** Python's `str(i)` for any integer: a minus sign before the magnitude when negative. */
  function IntToDecimal(i: int): (s: string)
    ensures |s| >= 1
    ensures s[0] == '-' <==> i < 0
    ensures i >= 0 ==> AllDigits(s)
    ensures IsIntText(s)
    ensures NoNewline(s)
  {
    if i < 0 then "-" + Decimal(-i) else Decimal(i)
  }

  /** An optional minus sign followed by at least one decimal digit. */
  predicate IsIntText(s: string) {
    if |s| >= 1 && s[0] == '-' then |s| >= 2 && AllDigits(s[1..]) else |s| >= 1 && AllDigits(s)
  }

  /** Inverse of IntToDecimal on the strings it produces. */
  function ParseInt(s: string): int
    requires IsIntText(s)
  {
    if s[0] == '-' then -(ParseDecimal(s[1..]) as int) else ParseDecimal(s)
  }

  lemma IntToDecimalRoundTrip(i: int)
    ensures ParseInt(IntToDecimal(i)) == i
  {
    if i < 0 {
      assert IntToDecimal(i)[1..] == Decimal(-i);
      ParseDecimalOfDecimal(-i);
    } else {
      ParseDecimalOfDecimal(i);
    }
  }

  /** Lines joined by newline characters, as Python's `"\n".join(ls)`. */
  function JoinLines(ls: seq<string>): (s: string)
    ensures |ls| >= 1 ==> ls[0] <= s
    ensures |ls| >= 2 ==> |s| > |ls[0]| && s[|ls[0]|] == '\n'
    decreases |ls|
  {
    if |ls| == 0 then "" else if |ls| == 1 then ls[0] else ls[0] + "\n" + JoinLines(ls[1..])
  }

  /** Index of the first newline in `s`, or `|s|` when there is none. */
  function NewlineIndex(s: string): (i: nat)
    ensures i <= |s|
    ensures i < |s| ==> s[i] == '\n'
    ensures forall j :: 0 <= j < i ==> s[j] != '\n'
    decreases |s|
  {
    if |s| == 0 || s[0] == '\n' then 0 else 1 + NewlineIndex(s[1..])
  }

  /** The pieces between newline characters, as Python's `s.split("\n")`. */
  function SplitLines(s: string): (ls: seq<string>)
    ensures |ls| >= 1
    ensures forall k :: 0 <= k < |ls| ==> NoNewline(ls[k])
    decreases |s|
  {
    var i := NewlineIndex(s);
    if i == |s| then [s] else [s[..i]] + SplitLines(s[i + 1..])
  }

  lemma {:induction false} SplitLinesOfJoinLines(ls: seq<string>)
    requires |ls| >= 1
    requires forall k :: 0 <= k < |ls| ==> NoNewline(ls[k])
    ensures SplitLines(JoinLines(ls)) == ls
    decreases |ls|
  {
    var head := ls[0];
    assert NoNewline(head);
    if |ls| > 1 {
      var rest := JoinLines(ls[1..]);
      var s := head + "\n" + rest;
      var i := NewlineIndex(s);
      assert s[|head|] == '\n';
      assert i == |head|;
      assert s[..i] == head;
      assert s[i + 1..] == rest;
      SplitLinesOfJoinLines(ls[1..]);
      assert ls == [head] + ls[1..];
    }
  }

  lemma {:induction false} JoinLinesOfSplitLines(s: string)
    ensures JoinLines(SplitLines(s)) == s
    decreases |s|
  {
    var i := NewlineIndex(s);
    if i < |s| {
      var line, tail := s[..i], s[i + 1..];
      var rest := SplitLines(tail);
      assert SplitLines(s) == [line] + rest;
      JoinLinesCons(line, rest);
      JoinLinesOfSplitLines(tail);
      assert s[i] == '\n';
      assert s == line + "\n" + tail;
    }
  }

  lemma JoinLinesCons(l: string, ls: seq<string>)
    requires |ls| >= 1
    ensures JoinLines([l] + ls) == l + "\n" + JoinLines(ls)
  {
    assert ([l] + ls)[1..] == ls;
  }

  /** A text whose first line is empty opens with a newline. */
  lemma JoinLinesOpensBlank(ls: seq<string>)
    requires |ls| >= 2 && ls[0] == ""
    ensures |JoinLines(ls)| > 0 && JoinLines(ls)[0] == '\n'
  {
  }

  /** Joining two non-empty runs of lines puts one newline between them. */
  lemma {:induction false} JoinLinesAppend(a: seq<string>, b: seq<string>)
    requires |a| >= 1 && |b| >= 1
    ensures JoinLines(a + b) == JoinLines(a) + "\n" + JoinLines(b)
    decreases |a|
  {
    if |a| > 1 {
      assert (a + b)[1..] == a[1..] + b;
      JoinLinesAppend(a[1..], b);
    } else {
      assert (a + b)[1..] == b;
    }
  }

  /**
   * A multi-line text placed as one line between others: splitting the
   * joined whole yields the surrounding lines with the inner text's own
   * lines in its place.
   */
  lemma SplitLinesOfSplicedText(head: seq<string>, inner: seq<string>, tail: seq<string>)
    requires |head| >= 1 && |inner| >= 1 && |tail| >= 1
    requires NoNewlines(head) && NoNewlines(inner) && NoNewlines(tail)
    ensures SplitLines(JoinLines(head + [JoinLines(inner)] + tail)) == head + inner + tail
  {
    var text := JoinLines(inner);
    assert head + [text] + tail == head + ([text] + tail);
    JoinLinesAppend(head, [text] + tail);
    JoinLinesCons(text, tail);
    assert head + inner + tail == head + (inner + tail);
    JoinLinesAppend(head, inner + tail);
    JoinLinesAppend(inner, tail);
    var all := head + inner + tail;
    forall k | 0 <= k < |all|
      ensures NoNewline(all[k])
    {
      if k >= |head| + |inner| {
        assert all[k] == tail[k - |head| - |inner|];
      } else if k >= |head| {
        assert all[k] == inner[k - |head|];
      } else {
        assert all[k] == head[k];
      }
    }
    SplitLinesOfJoinLines(all);
  }
}
