/** Which release is newer (src-tauri/src/android_update.rs, `precedence` and `is_newer`). */
module Versions {
  import opened Common
  import opened Text

  /** The dotted numbers, and whether a pre-release suffix followed them. */
  datatype Version = Version(nums: seq<nat>, pre: bool)

  /** Missing components are zero. */
  function At(v: Version, i: nat): nat {
    if i < |v.nums| then v.nums[i] else 0
  }

  /** `i` is the first component on which the zero-padded number lists differ. */
  ghost predicate FirstDifference(a: Version, b: Version, i: nat) {
    At(a, i) != At(b, i) && forall j: nat :: j < i ==> At(a, j) == At(b, j)
  }

  ghost predicate SameCore(a: Version, b: Version) {
    forall i: nat :: At(a, i) == At(b, i)
  }

  /** Numeric precedence of the cores, then a release above its own pre-releases. */
  ghost predicate Newer(a: Version, b: Version) {
    (exists i :: FirstDifference(a, b, i) && At(a, i) > At(b, i))
    || (SameCore(a, b) && b.pre && !a.pre)
  }

  ghost predicate Tied(a: Version, b: Version) {
    !Newer(a, b) && !Newer(b, a)
  }

  // ------------------------------------------------------------------ reading a version

  /** The characters `trim` strips: the White_Space property of Unicode. */
  predicate IsSpace(c: char) {
    || '\U{9}' <= c <= '\U{D}' || c == ' ' || c == '\U{85}' || c == '\U{A0}' || c == '\U{1680}'
    || '\U{2000}' <= c <= '\U{200A}' || c == '\U{2028}' || c == '\U{2029}' || c == '\U{202F}'
    || c == '\U{205F}' || c == '\U{3000}'
  }

  function Trim(s: string): string {
    if s == "" then ""
    else if IsSpace(s[0]) then Trim(s[1..])
    else if IsSpace(s[|s| - 1]) then Trim(s[..|s| - 1])
    else s
  }

  function TrimV(s: string): string {
    if s != "" && s[0] == 'v' then TrimV(s[1..]) else s
  }

  /** Anything that is not a number reads as zero. */
  function NumberOf(part: string): nat {
    var n := ParseU64(part);
    if n.Some? then n.value else 0
  }

  function Stripped(text: string): string {
    TrimV(Trim(text))
  }

  function WithoutBuild(s: string): string {
    s[..IndexOf(s, '+')]
  }

  function NumbersOf(core: string): seq<nat> {
    var parts := Split(core, '.');
    seq(|parts|, i requires 0 <= i < |parts| => NumberOf(parts[i]))
  }

  /** The numbers before the first dash, and whether anything follows it. */
  function CoreAndTag(s: string): Version {
    var dash := IndexOf(s, '-');
    Version(NumbersOf(s[..dash]), dash + 1 < |s|)
  }

  function Precedence(text: string): Version {
    CoreAndTag(WithoutBuild(Stripped(text)))
  }

  method IsNewer(latest: string, current: string) returns (newer: bool)
    ensures newer == Newer(Precedence(latest), Precedence(current))
  {
    newer := Outranks(Precedence(latest), Precedence(current));
  }

  /** The comparing loop. */
  method Outranks(latest: Version, current: Version) returns (newer: bool)
    ensures newer == Newer(latest, current)
  {
    var n := if |latest.nums| >= |current.nums| then |latest.nums| else |current.nums|;
    for i := 0 to n
      invariant forall j: nat :: j < i ==> At(latest, j) == At(current, j)
    {
      if At(latest, i) != At(current, i) {
        DifferenceDecides(latest, current, i);
        return At(latest, i) > At(current, i);
      }
    }
    assert SameCore(latest, current);
    return current.pre && !latest.pre;
  }

  function Numerals(nums: seq<nat>): (parts: seq<string>)
    ensures |parts| == |nums| && forall i :: 0 <= i < |nums| ==> parts[i] == Digits(nums[i])
  {
    seq(|nums|, i requires 0 <= i < |nums| => Digits(nums[i]))
  }

  function Core(nums: seq<nat>): string
    requires nums != []
  {
    Join(Numerals(nums), '.')
  }

  /** A version as it is written: any number of leading `v`s, dotted numbers, a pre-release tag, build metadata. */
  function Written(vs: nat, nums: seq<nat>, tag: Option<string>, build: Option<string>): string
    requires nums != []
  {
    seq(vs, _ => 'v') + (Core(nums) + Suffix('-', tag) + Suffix('+', build))
  }

  function Suffix(mark: char, text: Option<string>): string {
    if text.Some? then [mark] + text.value else ""
  }

  predicate NoSpace(s: string) {
    forall i :: 0 <= i < |s| ==> !IsSpace(s[i])
  }

  predicate AllSpace(s: string) {
    forall i :: 0 <= i < |s| ==> IsSpace(s[i])
  }

  lemma {:induction false} TrimStart(left: string, s: string)
    requires AllSpace(left)
    ensures Trim(left + s) == Trim(s)
  {
    if left == "" {
      assert left + s == s;
    } else {
      TrimStart(left[1..], s);
      assert (left + s)[1..] == left[1..] + s;
    }
  }

  lemma {:induction false} TrimEnd(s: string, right: string)
    requires AllSpace(right) && s != "" && !IsSpace(s[0]) && !IsSpace(s[|s| - 1])
    ensures Trim(s + right) == s
  {
    var text := s + right;
    if right == "" {
      assert text == s;
    } else {
      TrimEnd(s, right[..|right| - 1]);
      assert text[..|text| - 1] == s + right[..|right| - 1] && text[0] == s[0];
    }
  }

  lemma {:induction false} TrimVKeeps(vs: nat, s: string)
    requires s != "" && s[0] != 'v'
    ensures TrimV(seq(vs, _ => 'v') + s) == s
  {
    var text := seq(vs, _ => 'v') + s;
    if vs == 0 {
      assert text == s;
    } else {
      TrimVKeeps(vs - 1, s);
      assert text[1..] == seq(vs - 1, _ => 'v') + s;
    }
  }

  /** Digits and dots. */
  predicate IsCore(s: string) {
    s != "" && IsDigit(s[0]) && forall i :: 0 <= i < |s| ==> IsDigit(s[i]) || s[i] == '.'
  }

  lemma {:induction false} CoreIsCore(nums: seq<nat>)
    requires nums != []
    ensures IsCore(Core(nums))
  {
    JoinedDigits(Numerals(nums));
  }

  lemma {:induction false} JoinedDigits(parts: seq<string>)
    requires parts != [] && forall i :: 0 <= i < |parts| ==> |parts[i]| >= 1 && AllDigits(parts[i])
    ensures IsCore(Join(parts, '.'))
  {
    if |parts| > 1 {
      JoinedDigits(parts[1..]);
    }
    assert parts[0][0] == Join(parts, '.')[0];
  }

  lemma {:induction false} StrippedOf(left: string, vs: nat, s: string, right: string)
    requires AllSpace(left) && AllSpace(right) && s != "" && s[0] != 'v' && NoSpace(s)
    ensures Stripped(left + (seq(vs, _ => 'v') + s) + right) == s
  {
    var text := seq(vs, _ => 'v') + s;
    assert left + text + right == left + (text + right);
    TrimStart(left, text + right);
    TrimEnd(text, right);
    TrimVKeeps(vs, s);
  }

  lemma {:induction false} BuildIsDropped(s: string, build: Option<string>)
    requires '+' !in s
    ensures WithoutBuild(s + Suffix('+', build)) == s
  {
    IndexAfter(s, Suffix('+', build), '+');
  }

  lemma {:induction false} TagIsFound(core: string, tag: Option<string>)
    requires '-' !in core
    ensures CoreAndTag(core + Suffix('-', tag)) == Version(NumbersOf(core), tag.Some? && tag.value != "")
  {
    var text := core + Suffix('-', tag);
    IndexAfter(core, Suffix('-', tag), '-');
    assert text[..|core|] == core;
  }

  lemma {:induction false} NumbersOfCore(nums: seq<nat>)
    requires nums != [] && forall i :: 0 <= i < |nums| ==> nums[i] <= U64_MAX
    ensures NumbersOf(Core(nums)) == nums
  {
    SplitOfJoin(Numerals(nums), '.');
    forall i | 0 <= i < |nums| ensures NumberOf(Numerals(nums)[i]) == nums[i] {
      ParseOfDigits(nums[i]);
    }
  }

  /** No mark appears before its place. */
  lemma {:induction false} MarksAreClear(core: string, tag: Option<string>, build: Option<string>)
    requires IsCore(core)
    requires tag.Some? ==> '+' !in tag.value && NoSpace(tag.value)
    requires build.Some? ==> NoSpace(build.value)
    ensures '-' !in core && '+' !in core + Suffix('-', tag)
    ensures var s := core + Suffix('-', tag) + Suffix('+', build); s != "" && s[0] != 'v' && NoSpace(s)
  {
    assert (core + Suffix('-', tag) + Suffix('+', build))[0] == core[0];
    assert NoSpace(core) && NoSpace(Suffix('-', tag)) && NoSpace(Suffix('+', build));
  }

  /**
    A version reads as it was written: its numbers, and whether it has a non-empty pre-release tag.
    Surrounding white space, leading `v`s and build metadata change nothing.
   */
  lemma {:induction false} ReadsAsWritten(
      left: string, vs: nat, nums: seq<nat>, tag: Option<string>, build: Option<string>, right: string)
    requires AllSpace(left) && AllSpace(right)
    requires nums != [] && forall i :: 0 <= i < |nums| ==> nums[i] <= U64_MAX
    requires tag.Some? ==> '+' !in tag.value && NoSpace(tag.value)
    requires build.Some? ==> NoSpace(build.value)
    ensures Precedence(left + Written(vs, nums, tag, build) + right) == Version(nums, tag.Some? && tag.value != "")
  {
    var core := Core(nums);
    var tagged := core + Suffix('-', tag);
    CoreIsCore(nums);
    MarksAreClear(core, tag, build);
    StrippedOf(left, vs, tagged + Suffix('+', build), right);
    BuildIsDropped(tagged, build);
    TagIsFound(core, tag);
    NumbersOfCore(nums);
  }

  // --------------------------------------------------------------------------- the order

  lemma {:induction false} DifferenceDecides(a: Version, b: Version, i: nat)
    requires FirstDifference(a, b, i)
    ensures Newer(a, b) <==> At(a, i) > At(b, i)
    ensures Newer(b, a) <==> At(b, i) > At(a, i)
  {
    assert FirstDifference(b, a, i);
    forall j: nat | FirstDifference(a, b, j) || FirstDifference(b, a, j) ensures j == i {
      assert j < i ==> At(a, j) == At(b, j);
      assert i < j ==> At(a, i) == At(b, i);
    }
  }

  lemma {:induction false} CoreDecides(a: Version, b: Version)
    requires SameCore(a, b)
    ensures Newer(a, b) <==> b.pre && !a.pre
  {
    forall j: nat ensures !FirstDifference(a, b, j) {
      assert At(a, j) == At(b, j);
    }
  }

  /** Two cores are the same or first differ somewhere. */
  lemma {:induction false} DifferOrSame(a: Version, b: Version) returns (i: nat)
    ensures SameCore(a, b) || FirstDifference(a, b, i)
  {
    i := 0;
    var n := if |a.nums| >= |b.nums| then |a.nums| else |b.nums|;
    while i < n && At(a, i) == At(b, i)
      invariant i <= n && forall j: nat :: j < i ==> At(a, j) == At(b, j)
    {
      i := i + 1;
    }
  }

  /** A tie means the same zero-padded core and the same pre-release flag: nothing else is left unordered. */
  lemma {:induction false} TiedIff(a: Version, b: Version)
    ensures Tied(a, b) <==> SameCore(a, b) && a.pre == b.pre
  {
    var i := DifferOrSame(a, b);
    if !SameCore(a, b) {
      DifferenceDecides(a, b, i);
    } else {
      CoreDecides(a, b);
      CoreDecides(b, a);
    }
  }

  lemma {:induction false} NewerIsAsymmetric(a: Version, b: Version)
    ensures !(Newer(a, b) && Newer(b, a)) && !Newer(a, a)
  {
    CoreDecides(a, a);
    var i := DifferOrSame(a, b);
    if !SameCore(a, b) {
      DifferenceDecides(a, b, i);
    } else {
      CoreDecides(a, b);
      CoreDecides(b, a);
    }
  }

  /** Replacing a version by one with the same core moves no first difference. */
  lemma {:induction false} SameCoreKeeps(a: Version, b: Version, c: Version, i: nat)
    requires SameCore(a, b)
    ensures FirstDifference(a, c, i) <==> FirstDifference(b, c, i)
    ensures FirstDifference(c, a, i) <==> FirstDifference(c, b, i)
    ensures At(a, i) == At(b, i)
  {
    assert forall j: nat :: At(a, j) == At(b, j);
  }

  lemma {:induction false} NewerIsTransitive(a: Version, b: Version, c: Version)
    requires Newer(a, b) && Newer(b, c)
    ensures Newer(a, c)
  {
    var i := DifferOrSame(a, b);
    var j := DifferOrSame(b, c);
    if SameCore(a, b) && SameCore(b, c) {
      CoreDecides(a, b);
      CoreDecides(b, c);
      assert false;
    } else if SameCore(a, b) {
      SameCoreKeeps(a, b, c, j);
      DifferenceDecides(b, c, j);
      DifferenceDecides(a, c, j);
    } else if SameCore(b, c) {
      SameCoreKeeps(b, c, a, i);
      DifferenceDecides(a, b, i);
      DifferenceDecides(a, c, i);
    } else {
      var k := if i <= j then i else j;
      DifferenceDecides(a, b, i);
      DifferenceDecides(b, c, j);
      assert FirstDifference(a, c, k);
      DifferenceDecides(a, c, k);
    }
  }

  /** "Neither is newer" is an equivalence, so ties cannot chain into an order. */
  lemma {:induction false} TiesAreAnEquivalence(a: Version, b: Version, c: Version)
    ensures Tied(a, a)
    ensures Tied(a, b) ==> Tied(b, a)
    ensures Tied(a, b) && Tied(b, c) ==> Tied(a, c)
  {
    TiedIff(a, a);
    TiedIff(a, b);
    TiedIff(b, c);
    TiedIff(a, c);
    if SameCore(a, b) && SameCore(b, c) {
      forall i: nat ensures At(a, i) == At(c, i) {
        SameCoreKeeps(a, b, c, i);
        SameCoreKeeps(b, c, a, i);
      }
    }
  }

  // ------------------------------------------------------------------ malformed versions

  ghost predicate AllZero(v: Version) {
    forall i: nat :: At(v, i) == 0
  }

  /**
    A version without a number above zero is offered as an update if and only if the installed one
    is a pre-release of version zero and the offered one has no tag.
   */
  lemma {:induction false} ZeroIsNewerIff(latest: Version, current: Version)
    requires AllZero(latest)
    ensures Newer(latest, current) <==> AllZero(current) && current.pre && !latest.pre
  {
    var i := DifferOrSame(latest, current);
    if SameCore(latest, current) {
      CoreDecides(latest, current);
      forall j: nat ensures At(current, j) == 0 {
        assert At(latest, j) == At(current, j);
      }
    } else {
      DifferenceDecides(latest, current, i);
      assert At(latest, i) == 0;
    }
  }

  /** The text between the leading `v`s and the first dash or plus sign. */
  function CoreOf(text: string): string {
    var s := WithoutBuild(Stripped(text));
    s[..IndexOf(s, '-')]
  }

  /** No part of the core is a number. */
  predicate Unreadable(text: string) {
    forall i :: 0 <= i < |Split(CoreOf(text), '.')| ==> ParseU64(Split(CoreOf(text), '.')[i]).None?
  }

  lemma {:induction false} UnreadableIsZero(text: string)
    requires Unreadable(text)
    ensures AllZero(Precedence(text))
  {
    var v, parts := Precedence(text), Split(CoreOf(text), '.');
    assert v.nums == NumbersOf(CoreOf(text));
    forall i: nat ensures At(v, i) == 0 {
      assert i < |parts| ==> v.nums[i] == NumberOf(parts[i]);
    }
  }

  /**
    Texts without a readable number are offered as an update exactly when the installed version is
    a pre-release of version zero and the text has no tag: not never, as the documentation has it.
   */
  lemma {:induction false} UnreadableIsNewerIff(latest: string, current: string)
    requires Unreadable(latest)
    ensures var l, c := Precedence(latest), Precedence(current);
            Newer(l, c) <==> AllZero(c) && c.pre && !l.pre
  {
    UnreadableIsZero(latest);
    ZeroIsNewerIff(Precedence(latest), Precedence(current));
  }

  /** A text without white space or marks reads as its dotted parts. */
  lemma {:induction false} PlainReads(text: string)
    requires text != "" && text[0] != 'v' && NoSpace(text) && '-' !in text && '+' !in text
    ensures Precedence(text) == Version(NumbersOf(text), false)
  {
    assert "" + (seq(0, _ => 'v') + text) + "" == text;
    assert text + Suffix('+', None) == text && text + Suffix('-', None) == text;
    StrippedOf("", 0, text, "");
    BuildIsDropped(text, None);
    TagIsFound(text, None);
  }

  lemma {:induction false} TwoNumbers(a: string, b: string)
    requires '.' !in a && '.' !in b
    ensures NumbersOf(a + "." + b) == [NumberOf(a), NumberOf(b)]
  {
    assert [a, b][1..] == [b] && Join([a, b], '.') == a + "." + b;
    SplitOfJoin([a, b], '.');
  }

  lemma {:induction false} TwoPartsRead(text: string, a: string, b: string)
    requires text == a + "." + b && '.' !in a && '.' !in b
    requires text[0] != 'v' && NoSpace(text) && '-' !in text && '+' !in text
    ensures Precedence(text) == Version([NumberOf(a), NumberOf(b)], false)
  {
    PlainReads(text);
    TwoNumbers(a, b);
  }

  /** A partly readable text counts with what can be read: "1.x" reads as [1, 0] and is newer than "0.9". */
  lemma {:induction false} PartlyReadable(text: string, plain: string)
    requires text == "1.x" && plain == "0.9"
    ensures Precedence(text) == Version([1, 0], false)
    ensures Newer(Precedence(text), Precedence(plain))
  {
    TwoPartsRead(text, "1", "x");
    TwoPartsRead(plain, "0", "9");
    NumbersHere();
    FirstDecides(Precedence(text), Precedence(plain));
  }

  lemma {:induction false} NumbersHere()
    ensures NumberOf("1") == 1 && NumberOf("0") == 0 && NumberOf("x") == 0
  {
    ParseOfDigits(0);
    ParseOfDigits(1);
    assert Digits(0) == "0" && Digits(1) == "1";
  }

  lemma {:induction false} FirstDecides(a: Version, b: Version)
    requires At(a, 0) > At(b, 0)
    ensures Newer(a, b)
  {
    assert FirstDifference(a, b, 0);
  }

  lemma {:induction false} EmptyReads(text: string)
    requires text == ""
    ensures Precedence(text) == Version([0], false) && Unreadable(text)
  {
  }

  /** It happens: over an installed "0-b", an empty version reads as newer. */
  lemma {:induction false} MalformedCanBeNewer(text: string, installed: string)
    requires text == "" && installed == "0-b"
    ensures Unreadable(text) && Newer(Precedence(text), Precedence(installed))
  {
    EmptyReads(text);
    ZeroWithTag(installed);
    UnreadableIsNewerIff(text, installed);
  }

  lemma {:induction false} ZeroWithTag(installed: string)
    requires installed == "0-b"
    ensures Precedence(installed) == Version([0], true)
  {
    assert Numerals([0]) == ["0"] && Core([0]) == "0";
    assert "" + Written(0, [0], Some("b"), None) + "" == installed;
    ReadsAsWritten("", 0, [0], Some("b"), None, "");
  }
}
