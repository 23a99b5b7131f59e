/**
 * The .NET string operations the client relies on: null-or-empty tests,
 * joining, String.Replace, decimal formatting of integers, and the
 * rendering of [Flags] enum values as query-parameter tokens.
 */
module Text {
  import opened Wrappers

  /** C#'s int. */
  newtype int32 = x: int | -0x8000_0000 <= x < 0x8000_0000

  /** string.IsNullOrEmpty on a nullable string. */
  predicate IsNullOrEmpty(s: Option<string>) {
    s.None? || s.value == ""
  }

  /** The string joined with `sep` between consecutive parts. */
  function Join(parts: seq<string>, sep: string): string
    decreases |parts|
  {
    if |parts| == 0 then ""
    else if |parts| == 1 then parts[0]
    else parts[0] + sep + Join(parts[1..], sep)
  }

  /** String.Replace: every non-overlapping occurrence of `pattern`, scanning left to right, replaced. */
  function Replace(s: string, pattern: string, replacement: string): string
    requires pattern != ""
    decreases |s|
  {
    if |s| < |pattern| then s
    else if s[..|pattern|] == pattern then replacement + Replace(s[|pattern|..], pattern, replacement)
    else [s[0]] + Replace(s[1..], pattern, replacement)
  }

  /** A leading character other than the pattern's first is copied unchanged. */
  lemma ReplaceSkipsChar(c: char, t: string, pattern: string, replacement: string)
    requires pattern != "" && pattern[0] != c
    ensures Replace([c] + t, pattern, replacement) == [c] + Replace(t, pattern, replacement)
  {
    var s := [c] + t;
    assert s[0] == c && s[1..] == t;
    if |s| >= |pattern| {
      assert s[..|pattern|][0] == c;
    }
  }

  /** A prefix without the pattern's first character is copied unchanged. */
  lemma {:induction false} ReplaceSkipsPrefix(a: string, t: string, pattern: string, replacement: string)
    requires pattern != "" && pattern[0] !in a
    ensures Replace(a + t, pattern, replacement) == a + Replace(t, pattern, replacement)
    decreases |a|
  {
    if a == [] {
      assert a + t == t;
    } else {
      assert a + t == [a[0]] + (a[1..] + t);
      ReplaceSkipsChar(a[0], a[1..] + t, pattern, replacement);
      ReplaceSkipsPrefix(a[1..], t, pattern, replacement);
      assert [a[0]] + (a[1..] + Replace(t, pattern, replacement)) == a + Replace(t, pattern, replacement);
    }
  }

  /** An occurrence of the pattern at the front is replaced. */
  lemma ReplaceAtFront(t: string, pattern: string, replacement: string)
    requires pattern != ""
    ensures Replace(pattern + t, pattern, replacement) == replacement + Replace(t, pattern, replacement)
  {
    assert (pattern + t)[..|pattern|] == pattern;
    assert (pattern + t)[|pattern|..] == t;
  }

  /**
   * Replacing the separator of a join whose parts do not contain the
   * separator's first character re-joins the same parts with the replacement.
   */
  lemma {:induction false} ReplaceJoin(parts: seq<string>, sep: string, replacement: string)
    requires sep != ""
    requires forall i :: 0 <= i < |parts| ==> sep[0] !in parts[i]
    ensures Replace(Join(parts, sep), sep, replacement) == Join(parts, replacement)
    decreases |parts|
  {
    if |parts| == 0 {
    } else if |parts| == 1 {
      ReplaceSkipsPrefix(parts[0], "", sep, replacement);
      assert parts[0] + "" == parts[0];
    } else {
      var rest := Join(parts[1..], sep);
      assert Join(parts, sep) == parts[0] + (sep + rest);
      ReplaceSkipsPrefix(parts[0], sep + rest, sep, replacement);
      ReplaceAtFront(rest, sep, replacement);
      ReplaceJoin(parts[1..], sep, replacement);
      assert Join(parts, replacement) == parts[0] + (replacement + Join(parts[1..], replacement));
    }
  }

  /** A character that occurs in no part nor in the separator does not occur in the join. */
  lemma {:induction false} JoinAvoids(parts: seq<string>, sep: string, c: char)
    requires c !in sep
    requires forall i :: 0 <= i < |parts| ==> c !in parts[i]
    ensures c !in Join(parts, sep)
    decreases |parts|
  {
    if |parts| > 1 {
      JoinAvoids(parts[1..], sep, c);
    }
  }

  function DigitChar(d: int): char
    requires 0 <= d < 10
  {
    ('0' as int + d) as char
  }

  /** Int32.ToString() of a non-negative value: its decimal digits, most significant first. */
  function NatToDecimal(n: nat): string
    decreases n
  {
    if n < 10 then [DigitChar(n)] else NatToDecimal(n / 10) + [DigitChar(n % 10)]
  }

  /** Int32.ToString() in the invariant culture. */
  function Int32ToString(i: int32): string {
    if i < 0 then "-" + NatToDecimal(-(i as int)) else NatToDecimal(i as int)
  }

  /** The value that a string of decimal digits denotes. */
  function DecimalValue(s: string): int
    decreases |s|
  {
    if s == [] then 0 else DecimalValue(s[..|s| - 1]) * 10 + (s[|s| - 1] as int - '0' as int)
  }

  /** Reading back the digits gives the number: the decimal rendering loses nothing. */
  lemma {:induction false} NatToDecimalRoundTrip(n: nat)
    ensures DecimalValue(NatToDecimal(n)) == n
    ensures forall k :: 0 <= k < |NatToDecimal(n)| ==> '0' <= NatToDecimal(n)[k] <= '9'
    decreases n
  {
    var s := NatToDecimal(n);
    if n >= 10 {
      NatToDecimalRoundTrip(n / 10);
      assert s[..|s| - 1] == NatToDecimal(n / 10);
    } else {
      assert s[..|s| - 1] == [];
    }
  }

  /** String.Split on one separator character: the pieces between separators, empty ones included. */
  function SplitOn(s: string, c: char): (r: seq<string>)
    ensures |r| >= 1
    decreases |s|
  {
    if s == [] then [""]
    else if s[0] == c then [""] + SplitOn(s[1..], c)
    else var rest := SplitOn(s[1..], c); [[s[0]] + rest[0]] + rest[1..]
  }

  /** A piece without the separator, then the separator: the piece comes off whole. */
  lemma {:induction false} SplitOnPiece(a: string, c: char, t: string)
    requires c !in a
    ensures SplitOn(a + [c] + t, c) == [a] + SplitOn(t, c)
    decreases |a|
  {
    if a == [] {
      assert a + [c] + t == [c] + t;
      assert ([c] + t)[1..] == t;
    } else {
      var s := a + [c] + t;
      assert s[0] == a[0] && s[1..] == a[1..] + [c] + t;
      SplitOnPiece(a[1..], c, t);
      assert [a[0]] + a[1..] == a;
    }
  }

  lemma {:induction false} SplitOnWhole(a: string, c: char)
    requires c !in a
    ensures SplitOn(a, c) == [a]
    decreases |a|
  {
    if a != [] {
      SplitOnWhole(a[1..], c);
      assert [a[0]] + a[1..] == a;
    }
  }

  /** Splitting undoes joining when no part contains the separator. */
  lemma {:induction false} SplitOnJoin(parts: seq<string>, c: char)
    requires |parts| > 0
    requires forall i :: 0 <= i < |parts| ==> c !in parts[i]
    ensures SplitOn(Join(parts, [c]), c) == parts
    decreases |parts|
  {
    if |parts| == 1 {
      SplitOnWhole(parts[0], c);
    } else {
      SplitOnJoin(parts[1..], c);
      SplitOnPiece(parts[0], c, Join(parts[1..], [c]));
      assert [parts[0]] + parts[1..] == parts;
    }
  }

  /** A .NET enum member name: letters, digits and underscores. */
  predicate IsMemberName(s: string) {
    |s| > 0 && forall k :: 0 <= k < |s| ==> IsNameChar(s[k])
  }

  predicate IsNameChar(c: char) {
    ('A' <= c <= 'Z') || ('a' <= c <= 'z') || ('0' <= c <= '9') || c == '_'
  }

  /** The name Enum.ToString() gives a plain (non-[Flags]) enum value, such as a MediaNamespace or an OrderBy. */
  type MemberName = s: string | IsMemberName(s) witness "None"

  /**
   * A [Flags] enum value, given as the member names Enum.ToString() lists
   * for it, in that order; ToString() never yields an empty list.
   */
  type FlagsValue = names: seq<MemberName> | |names| > 0 witness ["None"]

  /** Enum.ToString() of a [Flags] value: its member names separated by ", ". */
  function EnumToString(f: FlagsValue): string {
    Join(f, ", ")
  }

  /** The source's `value.ToString().Replace(", ", "+")`. */
  function FlagsParameter(f: FlagsValue): string {
    Replace(EnumToString(f), ", ", "+")
  }

  /** The flags parameter is the member names joined with `+`, with no ", " separator left. */
  lemma FlagsParameterIsPlusJoin(f: FlagsValue)
    ensures FlagsParameter(f) == Join(f, "+")
    ensures ',' !in FlagsParameter(f) && ' ' !in FlagsParameter(f)
  {
    forall i | 0 <= i < |f| ensures ',' !in f[i] && ' ' !in f[i] {
      assert IsMemberName(f[i]);
    }
    ReplaceJoin(f, ", ", "+");
    JoinAvoids(f, "+", ',');
    JoinAvoids(f, "+", ' ');
  }
}
