/**
 * The sample's machine client-instance id (StreamClientInstanceId.cs):
 * the package name and ":", then four upper-case hex digits for each
 * stable hardware component of the package-specific hardware token, padded
 * on the right with 'X' to at least 32 characters. The token is a list of
 * 4-byte records, a little-endian 16-bit component type followed by a
 * little-endian 16-bit value.
 */
module ClientInstanceId {
  import opened Wrappers
  import UriEscape

  type Byte = UriEscape.Byte

  /** A C# `short`. */
  type Int16 = v: int | -0x8000 <= v < 0x8000

  /** BitConverter.ToInt16 on a little-endian machine: the two bytes read as a two's complement value. */
  function ToInt16(lo: Byte, hi: Byte): Int16 {
    var u := lo + 0x100 * hi;
    if u >= 0x8000 then u - 0x1_0000 else u
  }

  /** ToInt16 keeps all 16 bits, and the sign is the top bit of the high byte. */
  lemma ToInt16Bits(lo: Byte, hi: Byte)
    ensures Unsigned(ToInt16(lo, hi)) == lo + 0x100 * hi
    ensures (ToInt16(lo, hi) < 0) == (hi >= 0x80)
  {
  }

  /** The two bytes ToInt16 read, recovered from its result. */
  lemma ToInt16Injective(lo1: Byte, hi1: Byte, lo2: Byte, hi2: Byte)
    requires ToInt16(lo1, hi1) == ToInt16(lo2, hi2)
    ensures lo1 == lo2 && hi1 == hi2
  {
    ToInt16Bits(lo1, hi1);
    ToInt16Bits(lo2, hi2);
    var u := Unsigned(ToInt16(lo1, hi1));
    assert hi1 == u / 0x100 == hi2;
  }

  /** The component types kept: processor, memory size, disk serial number and BIOS. */
  const CpuId: Int16 := 1
  const MemorySize: Int16 := 2
  const DiskSerial: Int16 := 3
  const Bios: Int16 := 9

  predicate IsStableComponent(what: Int16) {
    what == CpuId || what == MemorySize || what == DiskSerial || what == Bios
  }

  /** The 16 bits of a short, as an unsigned number. */
  function Unsigned(v: Int16): (u: int)
    ensures 0 <= u < 0x1_0000 && u % 0x1_0000 == v % 0x1_0000
  {
    (v as int) % 0x1_0000
  }

  /** The last `n` hex digits of `u`, most significant first. */
  function HexDigits(u: nat, n: nat): (s: string)
    ensures |s| == n
  {
    if n == 0 then "" else HexDigits(u / 16, n - 1) + [UriEscape.HexDigit(u % 16)]
  }

  /** Int16.ToString("X4"): the 16 bits of the two's complement value as four upper-case hex digits. */
  function Hex4(v: Int16): (s: string)
    ensures |s| == 4
  {
    HexDigits(Unsigned(v), 4)
  }

  /** The value of four hex digits. */
  function ReadHex4(s: string): Option<int>
    requires |s| == 4
  {
    match (UriEscape.HexValue(s[0]), UriEscape.HexValue(s[1]), UriEscape.HexValue(s[2]), UriEscape.HexValue(s[3]))
    case (Some(a), Some(b), Some(c), Some(d)) => Some(((a * 16 + b) * 16 + c) * 16 + d)
    case _ => None
  }

  lemma HexDigitValue(d: int)
    requires 0 <= d < 16
    ensures UriEscape.HexValue(UriEscape.HexDigit(d)) == Some(d)
  {
  }

  /** Hex4 spelled out digit by digit, for a value already read as its 16 bits `u`. */
  lemma Hex4Digits(v: Int16, u: nat, r1: nat, r2: nat)
    requires u == Unsigned(v) && r1 == u / 16 && r2 == r1 / 16
    ensures Hex4(v) == [UriEscape.HexDigit(r2 / 16), UriEscape.HexDigit(r2 % 16), UriEscape.HexDigit(r1 % 16), UriEscape.HexDigit(u % 16)]
  {
    var r3 := r2 / 16;
    assert r3 % 16 == r3;
    assert HexDigits(r3, 1) == [UriEscape.HexDigit(r3 % 16)];
    assert HexDigits(r1, 3) == HexDigits(r3, 1) + [UriEscape.HexDigit(r2 % 16)] + [UriEscape.HexDigit(r1 % 16)];
  }

  /** Reading the four digits back gives the 16 bits, so distinct shorts print differently. */
  lemma Hex4RoundTrip(v: Int16)
    ensures ReadHex4(Hex4(v)) == Some(Unsigned(v))
  {
    var u := Unsigned(v);
    var r1 := u / 16;
    var r2 := r1 / 16;
    Hex4Digits(v, u, r1, r2);
    HexDigitValue(r2 / 16);
    HexDigitValue(r2 % 16);
    HexDigitValue(r1 % 16);
    HexDigitValue(u % 16);
    assert r2 == (r2 / 16) * 16 + r2 % 16;
    assert r1 == r2 * 16 + r1 % 16;
    assert u == r1 * 16 + u % 16;
  }

  /** The type of the record starting at byte `i`: BitConverter.ToInt16(id, i). */
  function What(id: seq<Byte>, i: nat): Int16
    requires i + 4 <= |id|
  {
    ToInt16(id[i], id[i + 1])
  }

  /** The value of the record starting at byte `i`: BitConverter.ToInt16(id, i + 2). */
  function Value(id: seq<Byte>, i: nat): Int16
    requires i + 4 <= |id|
  {
    ToInt16(id[i + 2], id[i + 3])
  }

  /** What one (type, value) record contributes: its value exactly when its type is a stable component. */
  function RecordValue(what0: Byte, what1: Byte, value0: Byte, value1: Byte): seq<Int16> {
    if IsStableComponent(ToInt16(what0, what1)) then [ToInt16(value0, value1)] else []
  }

  /** The values of the stable records among the first `k`, in record order. */
  function KeptUpTo(id: seq<Byte>, k: nat): seq<Int16>
    requires 4 * k <= |id|
  {
    if k == 0 then [] else KeptUpTo(id, k - 1) + ValueAt(id, 4 * (k - 1))
  }

  /** The contribution of the record starting at byte `n`. */
  function ValueAt(id: seq<Byte>, n: nat): seq<Int16>
    requires n + 4 <= |id|
  {
    RecordValue(id[n], id[n + 1], id[n + 2], id[n + 3])
  }

  lemma ValueAtCases(id: seq<Byte>, n: nat)
    requires n + 4 <= |id|
    ensures ValueAt(id, n) == if IsStableComponent(What(id, n)) then [Value(id, n)] else []
  {
  }

  /** The values of the stable records of the whole token. */
  function KeptValues(id: seq<Byte>): seq<Int16> {
    KeptUpTo(id, |id| / 4)
  }

  /** The hex digits of `vs`, four per value, in order. */
  function HexOf(vs: seq<Int16>): (s: string)
    ensures |s| == 4 * |vs|
  {
    if vs == [] then "" else Hex4(vs[0]) + HexOf(vs[1..])
  }

  /** The digits GetStableClientInstanceId appends after the prefix: four per stable value, in record order. */
  function StableComponents(id: seq<Byte>): string {
    HexOf(KeptValues(id))
  }

  lemma {:induction false} HexOfAppend(xs: seq<Int16>, ys: seq<Int16>)
    ensures HexOf(xs + ys) == HexOf(xs) + HexOf(ys)
    decreases |xs|
  {
    if xs == [] {
      assert xs + ys == ys;
    } else {
      assert (xs + ys)[0] == xs[0] && (xs + ys)[1..] == xs[1..] + ys;
      HexOfAppend(xs[1..], ys);
      var head, middle, last := Hex4(xs[0]), HexOf(xs[1..]), HexOf(ys);
      assert head + (middle + last) == (head + middle) + last;
    }
  }

  /** One loop iteration: the record at byte `i` adds the four digits of its value exactly when its type is stable. */
  lemma KeptStep(id: seq<Byte>, k: nat, i: nat)
    requires i == 4 * k && i + 4 <= |id|
    ensures HexOf(KeptUpTo(id, k + 1)) == HexOf(KeptUpTo(id, k)) + if IsStableComponent(What(id, i)) then Hex4(Value(id, i)) else ""
  {
    var kept := KeptUpTo(id, k);
    assert KeptUpTo(id, k + 1) == kept + ValueAt(id, i);
    HexOfAppend(kept, ValueAt(id, i));
    ValueAtCases(id, i);
    if IsStableComponent(What(id, i)) {
      assert HexOf([Value(id, i)]) == Hex4(Value(id, i)) + "";
    } else {
      assert HexOf(kept) + HexOf([]) == HexOf(kept);
    }
  }

  /** String.PadRight(width, pad). */
  function PadRight(s: string, width: nat, pad: char): (r: string)
    ensures |r| == if |s| >= width then |s| else width
    ensures r[..|s|] == s
    ensures forall i :: |s| <= i < |r| ==> r[i] == pad
  {
    if |s| >= width then s else s + seq(width - |s|, _ => pad)
  }

  /** The identifier for a token whose records are all complete. */
  function Encoded(id: seq<Byte>, packageName: string): string
    requires |id| % 4 == 0
  {
    PadRight(packageName + ":" + StableComponents(id), 32, 'X')
  }

  /** A length between 4k and 4k + 3 is a whole number of records exactly when it is 4k. */
  lemma WholeRecords(n: nat, k: nat)
    requires 4 * k <= n < 4 * k + 4
    ensures (n % 4 == 0) == (n == 4 * k)
    ensures n == 4 * k ==> n / 4 == k
  {
  }

  /**
   * GetStableClientInstanceId with the hardware token and the package name
   * as inputs. A token whose length is not a multiple of 4 makes one of the
   * BitConverter reads run past the end, which throws; that is None here.
   */
  method GetStableClientInstanceId(id: seq<Byte>, packageName: string) returns (r: Option<string>)
    ensures r.None? <==> |id| % 4 != 0
    ensures r.Some? ==> r.value == Encoded(id, packageName)
  {
    var idstring := packageName + ":";
    var i := 0;
    ghost var k := 0;
    while i < |id|
      invariant 0 <= i <= |id| && i == 4 * k
      invariant idstring == packageName + ":" + HexOf(KeptUpTo(id, k))
    {
      if i + 4 > |id| {
        WholeRecords(|id|, k);
        return None;
      }
      var what, value := What(id, i), Value(id, i);
      KeptStep(id, k, i);
      if IsStableComponent(what) {
        idstring := idstring + Hex4(value);
      }
      i, k := i + 4, k + 1;
    }
    WholeRecords(|id|, k);
    r := Some(PadRight(idstring, 32, 'X'));
  }

  /** The identifier starts with the package name and a colon. */
  lemma EncodedPrefix(id: seq<Byte>, packageName: string)
    requires |id| % 4 == 0
    ensures var e := Encoded(id, packageName);
      |e| > |packageName| && e[..|packageName| + 1] == packageName + ":"
  {
    var s := packageName + ":" + StableComponents(id);
    assert s[..|packageName| + 1] == packageName + ":";
  }

  /** Its length is the larger of 32 and the prefix plus four digits per stable record: padding never truncates. */
  lemma EncodedLength(id: seq<Byte>, packageName: string)
    requires |id| % 4 == 0
    ensures var n := |packageName| + 1 + 4 * |KeptValues(id)|;
      |Encoded(id, packageName)| == if n >= 32 then n else 32
  {
  }

  /** Everything after the digits is 'X', and the digits sit right after the prefix. */
  lemma EncodedLayout(id: seq<Byte>, packageName: string)
    requires |id| % 4 == 0
    ensures var e := Encoded(id, packageName);
      var p := |packageName| + 1;
      var d := StableComponents(id);
      && e[p..p + |d|] == d
      && forall i :: p + |d| <= i < |e| ==> e[i] == 'X'
  {
    var s := packageName + ":" + StableComponents(id);
    var e := Encoded(id, packageName);
    assert e[..|s|] == s;
    assert e[|packageName| + 1..|s|] == s[|packageName| + 1..];
  }

  /** The digits decode, four at a time, to the 16 bits of each stable value. */
  function ReadHexGroups(s: string): Option<seq<int>>
    decreases |s|
  {
    if s == [] then Some([])
    else if |s| < 4 then None
    else
      match (ReadHex4(s[..4]), ReadHexGroups(s[4..]))
      case (Some(v), Some(vs)) => Some([v] + vs)
      case _ => None
  }

  function Bits(vs: seq<Int16>): (us: seq<int>)
    ensures |us| == |vs| && forall i :: 0 <= i < |vs| ==> us[i] == Unsigned(vs[i])
  {
    if vs == [] then [] else [Unsigned(vs[0])] + Bits(vs[1..])
  }

  lemma {:induction false} HexOfRoundTrip(vs: seq<Int16>)
    ensures ReadHexGroups(HexOf(vs)) == Some(Bits(vs))
    decreases |vs|
  {
    if vs != [] {
      var s := HexOf(vs);
      assert s[..4] == Hex4(vs[0]) && s[4..] == HexOf(vs[1..]);
      Hex4RoundTrip(vs[0]);
      HexOfRoundTrip(vs[1..]);
    }
  }

  /** The stable values can be read back from the digits, in record order. */
  lemma ComponentsRecoverable(id: seq<Byte>)
    requires |id| % 4 == 0
    ensures ReadHexGroups(StableComponents(id)) == Some(Bits(KeptValues(id)))
  {
    HexOfRoundTrip(KeptValues(id));
  }

  /** A record's contribution depends on its four bytes only. */
  lemma ValueAtSame(x: seq<Byte>, n: nat, y: seq<Byte>, j: nat)
    requires n + 4 <= |x| && j + 4 <= |y|
    requires x[n] == y[j] && x[n + 1] == y[j + 1] && x[n + 2] == y[j + 2] && x[n + 3] == y[j + 3]
    ensures ValueAt(x, n) == ValueAt(y, j)
  {
  }

  /** KeptUpTo only looks at the first `k` records. */
  lemma {:induction false} KeptUpToPrefix(x: seq<Byte>, y: seq<Byte>, k: nat)
    requires 4 * k <= |x| && 4 * k <= |y| && x[..4 * k] == y[..4 * k]
    ensures KeptUpTo(x, k) == KeptUpTo(y, k)
  {
    if k > 0 {
      var n := 4 * (k - 1);
      var p := x[..4 * k];
      assert x[..n] == p[..n] && y[..n] == p[..n];
      assert x[n] == p[n] == y[n] && x[n + 1] == p[n + 1] == y[n + 1];
      assert x[n + 2] == p[n + 2] == y[n + 2] && x[n + 3] == p[n + 3] == y[n + 3];
      ValueAtSame(x, n, y, n);
      KeptUpToPrefix(x, y, k - 1);
    }
  }

  lemma {:induction false} KeptUpToAppend(a: seq<Byte>, m: nat, b: seq<Byte>, k: nat)
    requires |a| == 4 * m && 4 * k <= |b|
    ensures KeptUpTo(a + b, m + k) == KeptUpTo(a, m) + KeptUpTo(b, k)
  {
    if k == 0 {
      assert (a + b)[..4 * m] == a[..4 * m];
      KeptUpToPrefix(a + b, a, m);
    } else {
      var n := 4 * (k - 1);
      var ab := a + b;
      var j := 4 * (m + k - 1);
      assert j == |a| + n;
      assert ab[j] == b[n] && ab[j + 1] == b[n + 1] && ab[j + 2] == b[n + 2] && ab[j + 3] == b[n + 3];
      ValueAtSame(ab, j, b, n);
      KeptUpToAppend(a, m, b, k - 1);
      var front, middle, last := KeptUpTo(a, m), KeptUpTo(b, k - 1), ValueAt(b, n);
      assert KeptUpTo(ab, m + k) == (front + middle) + last;
      assert (front + middle) + last == front + (middle + last);
    }
  }

  /** Records are taken in order: the values of a token are those of its two halves, one after the other. */
  lemma KeptValuesAppend(a: seq<Byte>, b: seq<Byte>)
    requires |a| % 4 == 0 && |b| % 4 == 0
    ensures KeptValues(a + b) == KeptValues(a) + KeptValues(b)
  {
    assert |a + b| / 4 == |a| / 4 + |b| / 4;
    KeptUpToAppend(a, |a| / 4, b, |b| / 4);
  }

  /** A token of one record yields that record's contribution. */
  lemma SingleRecord(what0: Byte, what1: Byte, value0: Byte, value1: Byte)
    ensures KeptValues([what0, what1, value0, value1]) == RecordValue(what0, what1, value0, value1)
  {
    var r := [what0, what1, value0, value1];
    assert |r| / 4 == 1;
    assert KeptUpTo(r, 1) == [] + ValueAt(r, 0);
  }

  /** A record of any other type can be removed without changing the identifier. */
  lemma UnstableRecordIgnored(a: seq<Byte>, what0: Byte, what1: Byte, value0: Byte, value1: Byte, b: seq<Byte>,
                              packageName: string)
    requires |a| % 4 == 0 && |b| % 4 == 0
    requires !IsStableComponent(ToInt16(what0, what1))
    ensures Encoded(a + [what0, what1, value0, value1] + b, packageName) == Encoded(a + b, packageName)
  {
    var rec := [what0, what1, value0, value1];
    SingleRecord(what0, what1, value0, value1);
    assert KeptValues(rec) == [];
    KeptValuesAppend(a, rec);
    KeptValuesAppend(a + rec, b);
    KeptValuesAppend(a, b);
    assert KeptValues(a + rec + b) == KeptValues(a) + [] + KeptValues(b) == KeptValues(a + b);
    assert StableComponents(a + rec + b) == StableComponents(a + b);
  }
}
