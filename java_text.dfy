/** The parts of java.lang.String, Apache commons-lang StringUtils and Guava
    Strings that the plugin relies on, stated over `string = seq<char>`.
    Case mapping and digit classification are ASCII only. */
module JavaText {
  import opened Wrappers

  // ---------------------------------------------------------------------------
  // Trimming and null handling
  // ---------------------------------------------------------------------------

  /** String.trim removes every leading and trailing character up to U+0020. */
  predicate IsTrimmable(c: char) { c <= ' ' }

  /** A string that String.trim leaves alone. */
  predicate IsTrimmedForm(s: string) {
    s == [] || (!IsTrimmable(s[0]) && !IsTrimmable(s[|s| - 1]))
  }

  function TrimLeading(s: string): (r: string)
    ensures |r| <= |s| && r == s[|s| - |r|..]
    ensures forall i :: 0 <= i < |s| - |r| ==> IsTrimmable(s[i])
    ensures r == [] || !IsTrimmable(r[0])
  {
    if |s| > 0 && IsTrimmable(s[0]) then TrimLeading(s[1..]) else s
  }

  function TrimTrailing(s: string): (r: string)
    ensures |r| <= |s| && r == s[..|r|]
    ensures forall i :: |r| <= i < |s| ==> IsTrimmable(s[i])
    ensures r == [] || !IsTrimmable(r[|r| - 1])
  {
    if |s| > 0 && IsTrimmable(s[|s| - 1]) then TrimTrailing(s[..|s| - 1]) else s
  }

  /** java.lang.String.trim. */
  function Trim(s: string): (r: string)
    ensures IsTrimmedForm(r)
    ensures |r| <= |s|
  {
    TrimTrailing(TrimLeading(s))
  }

  lemma TrimKeepsTrimmed(s: string)
    requires IsTrimmedForm(s)
    ensures Trim(s) == s
  {
  }

  /** StringUtils.trimToEmpty: null becomes "", anything else is trimmed. */
  function TrimToEmpty(s: Option<string>): (r: string)
    ensures IsTrimmedForm(r)
    ensures s.None? ==> r == ""
  {
    match s
    case None => ""
    case Some(v) => Trim(v)
  }

  /** Guava Strings.isNullOrEmpty. */
  predicate IsNullOrEmpty(s: Option<string>) {
    s.None? || s.value == ""
  }

  /** What Java's string concatenation writes for a possibly-null String. */
  function ConcatText(s: Option<string>): string {
    match s
    case None => "null"
    case Some(v) => v
  }

  /** Boolean.toString. */
  function BoolText(b: bool): string {
    if b then "true" else "false"
  }

  // ---------------------------------------------------------------------------
  // Searching and splitting
  // ---------------------------------------------------------------------------

  /** String.indexOf(char): the first index of `c`, or -1. */
  function IndexOf(s: string, c: char): (i: int)
    ensures -1 <= i < |s|
    ensures i == -1 <==> c !in s
    ensures 0 <= i ==> s[i] == c && c !in s[..i]
  {
    if s == [] then -1
    else if s[0] == c then 0
    else
      var k := IndexOf(s[1..], c);
      if k < 0 then -1
      else
        assert s[..k + 1] == [s[0]] + s[1..][..k];
        k + 1
  }

  /** The pieces of `s` between occurrences of `d`, empty pieces included. */
  function Segments(s: string, d: char): (parts: seq<string>)
    ensures |parts| >= 1
    ensures forall i :: 0 <= i < |parts| ==> d !in parts[i]
    decreases |s|
  {
    var i := IndexOf(s, d);
    if i < 0 then [s] else [s[..i]] + Segments(s[i + 1..], d)
  }

  /** Joins pieces with `d` between neighbours. */
  function Join(parts: seq<string>, d: char): string
    requires |parts| >= 1
  {
    if |parts| == 1 then parts[0] else parts[0] + [d] + Join(parts[1..], d)
  }

  /** Drops the run of empty strings at the end of `parts`. */
  function DropTrailingEmpty(parts: seq<string>): (r: seq<string>)
    ensures |r| <= |parts| && r == parts[..|r|]
    ensures r == [] || r[|r| - 1] != ""
    ensures forall i :: |r| <= i < |parts| ==> parts[i] == ""
  {
    if |parts| > 0 && parts[|parts| - 1] == "" then DropTrailingEmpty(parts[..|parts| - 1]) else parts
  }

  /** String.split with a one-character, non-meta regex and limit 0: when the
      separator does not occur the input is the only element; otherwise the
      pieces are kept in order and the trailing empty ones are dropped. */
  function Split(s: string, d: char): seq<string> {
    if d !in s then [s] else DropTrailingEmpty(Segments(s, d))
  }

  /** `k` copies of `c`. */
  function Repeat(c: char, k: nat): (r: string)
    ensures |r| == k
    ensures forall i :: 0 <= i < k ==> r[i] == c
  {
    if k == 0 then [] else Repeat(c, k - 1) + [c]
  }

  function Empties(k: nat): (r: seq<string>)
    ensures |r| == k
    ensures forall i :: 0 <= i < k ==> r[i] == ""
  {
    if k == 0 then [] else Empties(k - 1) + [""]
  }

  lemma JoinCons(h: string, rest: seq<string>, d: char)
    requires |rest| >= 1
    ensures Join([h] + rest, d) == h + [d] + Join(rest, d)
  {
    assert ([h] + rest)[1..] == rest;
  }

  lemma SplitAround(s: string, i: nat)
    requires i < |s|
    ensures s == s[..i] + [s[i]] + s[i + 1..]
  {
  }

  /** Joining the pieces of `s` with the separator gives `s` back. */
  lemma {:induction false} JoinSegments(s: string, d: char)
    ensures Join(Segments(s, d), d) == s
    decreases |s|
  {
    var i := IndexOf(s, d);
    if i >= 0 {
      var rest := Segments(s[i + 1..], d);
      JoinSegments(s[i + 1..], d);
      JoinCons(s[..i], rest, d);
      SplitAround(s, i);
    }
  }

  lemma IndexOfAfterPrefix(a: string, d: char, b: string)
    requires d !in a
    ensures IndexOf(a + [d] + b, d) == |a|
  {
    var s := a + [d] + b;
    assert s[..|a|] == a;
    assert s[..|a| + 1] == a + [d];
  }

  /** The pieces of `a d b`, with no separator in `a`, are `a` and then the
      pieces of `b`. */
  lemma SegmentsCons(a: string, d: char, b: string)
    requires d !in a
    ensures Segments(a + [d] + b, d) == [a] + Segments(b, d)
  {
    IndexOfAfterPrefix(a, d, b);
    var s := a + [d] + b;
    assert s[..|a|] == a;
    assert s[|a| + 1..] == b;
  }

  lemma {:induction false} SegmentsJoin(parts: seq<string>, d: char)
    requires |parts| >= 1
    requires forall i :: 0 <= i < |parts| ==> d !in parts[i]
    ensures Segments(Join(parts, d), d) == parts
    decreases |parts|
  {
    if |parts| > 1 {
      SegmentsCons(parts[0], d, Join(parts[1..], d));
      SegmentsJoin(parts[1..], d);
      assert [parts[0]] + parts[1..] == parts;
    }
  }

  lemma {:induction false} JoinEmpties(parts: seq<string>, d: char, k: nat)
    requires |parts| >= 1
    ensures Join(parts + Empties(k), d) == Join(parts, d) + Repeat(d, k)
    decreases |parts|, k
  {
    if |parts| == 1 {
      if k > 0 {
        JoinEmpties(parts, d, k - 1);
        JoinAppendEmpty(parts + Empties(k - 1), d);
        assert parts + Empties(k) == parts + Empties(k - 1) + [""];
      }
    } else {
      JoinEmpties(parts[1..], d, k);
      assert (parts + Empties(k))[1..] == parts[1..] + Empties(k);
    }
  }

  lemma {:induction false} JoinAppendEmpty(parts: seq<string>, d: char)
    requires |parts| >= 1
    ensures Join(parts + [""], d) == Join(parts, d) + [d]
    decreases |parts|
  {
    if |parts| > 1 {
      JoinAppendEmpty(parts[1..], d);
      assert (parts + [""])[1..] == parts[1..] + [""];
    }
  }

  lemma {:induction false} DropEmpties(parts: seq<string>, k: nat)
    requires parts != [] && parts[|parts| - 1] != ""
    ensures DropTrailingEmpty(parts + Empties(k)) == parts
    decreases k
  {
    if k > 0 {
      assert (parts + Empties(k))[..|parts| + k - 1] == parts + Empties(k - 1);
      DropEmpties(parts, k - 1);
    }
  }

  /** Splitting `a d b d...d` (with `b` non-empty) gives exactly `[a, b]`:
      any number of trailing separators is absorbed. */
  lemma SplitTwoWithTrailing(a: string, b: string, d: char, k: nat)
    requires d !in a && d !in b && b != ""
    ensures Split(a + [d] + b + Repeat(d, k), d) == [a, b]
  {
    var parts := [a, b] + Empties(k);
    JoinEmpties([a, b], d, k);
    assert Join([a, b], d) == a + [d] + b;
    var s := a + [d] + b + Repeat(d, k);
    assert s == Join(parts, d);
    assert s[|a|] == d;
    forall i | 0 <= i < |parts| ensures d !in parts[i] {
      if i >= 2 { assert parts[i] == ""; }
    }
    SegmentsJoin(parts, d);
    DropEmpties([a, b], k);
  }

  /** Conversely, whenever String.split yields exactly two pieces, the input
      is those two pieces around one separator, followed only by separators. */
  lemma SplitTwoShape(s: string, d: char)
    requires |Split(s, d)| == 2
    ensures var parts := Split(s, d);
      d !in parts[0] && d !in parts[1] && parts[1] != "" &&
      s == parts[0] + [d] + parts[1] + Repeat(d, |Segments(s, d)| - 2)
  {
    var segs := Segments(s, d);
    var parts := Split(s, d);
    assert d in s;
    assert parts == DropTrailingEmpty(segs);
    var k := |segs| - 2;
    assert parts == segs[..2];
    assert segs == parts + Empties(k);
    assert d !in parts[0] && d !in parts[1] by {
      assert parts[0] == segs[0] && parts[1] == segs[1];
    }
    JoinSegments(s, d);
    JoinEmpties(parts, d, k);
    JoinCons(parts[0], [parts[1]], d);
    assert [parts[0]] + [parts[1]] == parts;
  }

  // ---------------------------------------------------------------------------
  // Case, suffixes, digits
  // ---------------------------------------------------------------------------

  function UpperChar(c: char): char {
    if 'a' <= c <= 'z' then (c as int - 32) as char else c
  }

  function LowerChar(c: char): char {
    if 'A' <= c <= 'Z' then (c as int + 32) as char else c
  }

  /** String.toUpperCase. */
  function ToUpper(s: string): (r: string)
    ensures |r| == |s|
  {
    seq(|s|, i requires 0 <= i < |s| => UpperChar(s[i]))
  }

  /** String.toLowerCase. */
  function ToLower(s: string): (r: string)
    ensures |r| == |s|
  {
    seq(|s|, i requires 0 <= i < |s| => LowerChar(s[i]))
  }

  /** String.equalsIgnoreCase: same length, characters equal up to case. */
  predicate EqualsIgnoreCase(a: string, b: string) {
    |a| == |b| && forall i :: 0 <= i < |a| ==> UpperChar(a[i]) == UpperChar(b[i])
  }

  lemma EqualsIgnoreCaseIsUpperEquality(a: string, b: string)
    ensures EqualsIgnoreCase(a, b) <==> ToUpper(a) == ToUpper(b)
  {
    if ToUpper(a) == ToUpper(b) {
      forall i | 0 <= i < |a| ensures UpperChar(a[i]) == UpperChar(b[i]) {
        assert ToUpper(a)[i] == ToUpper(b)[i];
      }
    }
  }

  /** String.endsWith. */
  predicate EndsWith(s: string, suffix: string) {
    |suffix| <= |s| && s[|s| - |suffix|..] == suffix
  }

  predicate IsDigit(c: char) { '0' <= c <= '9' }

  /** StringUtils.isNumeric (commons-lang 2): every character is a digit, so
      the empty string is numeric. */
  predicate IsNumeric(s: string) {
    forall i :: 0 <= i < |s| ==> IsDigit(s[i])
  }

  const MIN_INT: int := -0x8000_0000
  const MAX_INT: int := 0x7fff_ffff

  function DigitsValue(s: string): nat
    requires IsNumeric(s)
  {
    if s == [] then 0 else DigitsValue(s[..|s| - 1]) * 10 + (s[|s| - 1] as int - '0' as int)
  }

  /** Integer.parseInt(s) in radix 10: an optional sign and at least one
      digit, within the 32-bit range; None stands for NumberFormatException. */
  function ParseInt(s: string): (r: Option<int>)
    ensures r.Some? ==> MIN_INT <= r.value <= MAX_INT
    ensures r.Some? ==> s != [] && IsNumeric(if s[0] == '-' || s[0] == '+' then s[1..] else s)
  {
    if s == [] then None
    else
      var digits := if s[0] == '-' || s[0] == '+' then s[1..] else s;
      if digits == [] || !IsNumeric(digits) then None
      else
        var n: int := DigitsValue(digits);
        var v := if s[0] == '-' then -n else n;
        if MIN_INT <= v <= MAX_INT then Some(v) else None
  }

  /** The decimal text of a natural number, without sign or leading zeros. */
  function DecimalText(n: nat): (r: string)
    ensures r != [] && IsNumeric(r)
  {
    if n < 10 then [('0' as int + n) as char]
    else DecimalText(n / 10) + [('0' as int + n % 10) as char]
  }

  lemma {:induction false} DecimalTextValue(n: nat)
    ensures DigitsValue(DecimalText(n)) == n
  {
    if n >= 10 {
      DecimalTextValue(n / 10);
      var t := DecimalText(n);
      assert t[..|t| - 1] == DecimalText(n / 10);
    }
  }

  /** Integer.parseInt reads back every non-negative int's decimal text. */
  lemma ParseDecimalText(n: nat)
    requires n <= MAX_INT
    ensures ParseInt(DecimalText(n)) == Some(n)
  {
    DecimalTextValue(n);
    var t := DecimalText(n);
    assert t[0] != '-' && t[0] != '+' by { assert IsDigit(t[0]); }
  }
}
