/** The string operations the components share: splitting, joining, and decimal numbers. */
module Text {
  import opened Common

  // ------------------------------------------------------------------ splitting and joining

  /** The parts between separators; there is always at least one. */
  function Split(s: string, sep: char): (parts: seq<string>)
    ensures |parts| >= 1
    ensures forall i :: 0 <= i < |parts| ==> sep !in parts[i]
  {
    if s == "" then [""]
    else
      var rest := Split(s[1..], sep);
      if s[0] == sep then [""] + rest else [[s[0]] + rest[0]] + rest[1..]
  }

  function Join(parts: seq<string>, sep: char): string
    requires parts != []
  {
    if |parts| == 1 then parts[0] else parts[0] + [sep] + Join(parts[1..], sep)
  }

  /** Splitting loses nothing: joining the parts gives the text back. */
  lemma {:induction false} JoinOfSplit(s: string, sep: char)
    ensures Join(Split(s, sep), sep) == s
  {
    if s != "" {
      JoinOfSplit(s[1..], sep);
      assert s == [s[0]] + s[1..];
      var rest := Split(s[1..], sep);
      assert ([""] + rest)[1..] == rest;
      assert ([[s[0]] + rest[0]] + rest[1..])[1..] == rest[1..];
    }
  }

  /** Parts without a separator in them come back from the joined text. */
  lemma {:induction false} SplitOfJoin(parts: seq<string>, sep: char)
    requires parts != [] && forall i :: 0 <= i < |parts| ==> sep !in parts[i]
    ensures Split(Join(parts, sep), sep) == parts
  {
    if |parts| == 1 {
      SplitAfter(parts[0], "", sep);
      assert parts[0] + "" == parts[0] && parts == [parts[0]];
    } else {
      var rest := Join(parts[1..], sep);
      SplitOfJoin(parts[1..], sep);
      assert ([sep] + rest)[1..] == rest;
      assert Split([sep] + rest, sep) == [""] + parts[1..];
      SplitAfter(parts[0], [sep] + rest, sep);
      assert parts[0] + [sep] + rest == parts[0] + ([sep] + rest);
      assert parts[0] + "" == parts[0] && parts == [parts[0]] + parts[1..];
    }
  }

  /** Text without a separator goes in front of the first part. */
  lemma {:induction false} SplitAfter(head: string, s: string, sep: char)
    requires sep !in head
    ensures var rest := Split(s, sep); Split(head + s, sep) == [head + rest[0]] + rest[1..]
  {
    if head == "" {
      assert head + s == s && "" + Split(s, sep)[0] == Split(s, sep)[0];
    } else {
      SplitAfter(head[1..], s, sep);
      assert (head + s)[1..] == head[1..] + s;
      var rest := Split(s, sep);
      assert ([head[1..] + rest[0]] + rest[1..])[1..] == rest[1..];
      assert [head[0]] + (head[1..] + rest[0]) == head + rest[0];
    }
  }

  /** Position of the first `c`, or the length when there is none. */
  function IndexOf(s: string, c: char): (i: nat)
    ensures i <= |s| && c !in s[..i] && (i < |s| ==> s[i] == c)
  {
    if s == "" || s[0] == c then 0 else
      var i := IndexOf(s[1..], c);
      assert s[..i + 1] == [s[0]] + s[1..][..i];
      1 + i
  }

  lemma {:induction false} IndexAfter(head: string, s: string, c: char)
    requires c !in head
    ensures IndexOf(head + s, c) == |head| + IndexOf(s, c)
  {
    if head == "" {
      assert head + s == s;
    } else {
      IndexAfter(head[1..], s, c);
      assert (head + s)[1..] == head[1..] + s;
    }
  }

  // --------------------------------------------------------------------- decimal numbers

  function Digit(d: nat): (c: char)
    requires d < 10
    ensures IsDigit(c) && DigitValue(c) == d
  {
    d as char + '0'
  }

  predicate IsDigit(c: char) {
    '0' <= c <= '9'
  }

  function DigitValue(c: char): nat
    requires IsDigit(c)
  {
    (c - '0') as nat
  }

  function Digits(n: nat): (s: string)
    ensures |s| >= 1 && AllDigits(s)
  {
    if n < 10 then [Digit(n)] else Digits(n / 10) + [Digit(n % 10)]
  }

  predicate AllDigits(s: string) {
    forall i :: 0 <= i < |s| ==> IsDigit(s[i])
  }

  function Value(s: string): nat
    requires AllDigits(s)
  {
    if s == "" then 0 else Value(s[..|s| - 1]) * 10 + DigitValue(s[|s| - 1])
  }

  lemma {:induction false} ValueOfDigits(n: nat)
    ensures Value(Digits(n)) == n
  {
    var s := Digits(n);
    if n < 10 {
      assert s[..0] == "";
    } else {
      ValueOfDigits(n / 10);
      assert s[..|s| - 1] == Digits(n / 10);
    }
  }

  /** A number is read back from its digits, so different numbers have different digits. */
  lemma {:induction false} DigitsInjective(a: nat, b: nat)
    requires Digits(a) == Digits(b)
    ensures a == b
  {
    ValueOfDigits(a);
    ValueOfDigits(b);
  }

  /** `parse::<u64>`: an optional plus sign and digits, with no overflow. */
  function ParseU64(s: string): Option<nat> {
    var digits := if |s| > 1 && s[0] == '+' then s[1..] else s;
    if digits == "" || !AllDigits(digits) || Value(digits) > U64_MAX then None else Some(Value(digits))
  }

  lemma {:induction false} ParseOfDigits(n: nat)
    ensures ParseU64(Digits(n)) == if n <= U64_MAX then Some(n) else None
  {
    ValueOfDigits(n);
    assert IsDigit(Digits(n)[0]);
  }
}
