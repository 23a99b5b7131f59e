/**
 * Uri.EscapeDataString as section 2 of RFC 3986 describes it: every
 * character outside the unreserved set of section 2.3 is encoded as UTF-8
 * (RFC 3629) and each byte written as "%" followed by two upper-case hex
 * digits (section 2.1). Unescape is the matching decoder, the partner the
 * round trip is proved against.
 */
module UriEscape {
  import opened Wrappers

  type Byte = b: int | 0 <= b < 256

  /** The unreserved characters of RFC 3986 section 2.3. */
  predicate IsUnreserved(c: char) {
    ('A' <= c <= 'Z') || ('a' <= c <= 'z') || ('0' <= c <= '9') || c == '-' || c == '.' || c == '_' || c == '~'
  }

  /** Upper-case hex digit, as RFC 3986 section 2.1 recommends for producers. */
  function HexDigit(d: int): (c: char)
    requires 0 <= d < 16
    ensures IsUnreserved(c)
  {
    if d < 10 then ('0' as int + d) as char else ('A' as int + d - 10) as char
  }

  /** The value of a hex digit of either case. */
  function HexValue(c: char): Option<int> {
    if '0' <= c <= '9' then Some(c as int - '0' as int)
    else if 'A' <= c <= 'F' then Some(c as int - 'A' as int + 10)
    else if 'a' <= c <= 'f' then Some(c as int - 'a' as int + 10)
    else None
  }

  /** The UTF-8 encoding of one Unicode scalar value (RFC 3629 section 3). */
  function Utf8(c: char): (bs: seq<Byte>)
    ensures |bs| == (if c as int < 0x80 then 1 else if c as int < 0x800 then 2 else if c as int < 0x10000 then 3 else 4)
  {
    var n := c as int;
    if n < 0x80 then [n]
    else if n < 0x800 then [0xC0 + n / 64, 0x80 + n % 64]
    else if n < 0x10000 then [0xE0 + n / 4096, 0x80 + (n / 64) % 64, 0x80 + n % 64]
    else [0xF0 + n / 262144, 0x80 + (n / 4096) % 64, 0x80 + (n / 64) % 64, 0x80 + n % 64]
  }

  /** One percent-encoded octet. */
  function PercentByte(b: Byte): string {
    ['%', HexDigit(b / 16), HexDigit(b % 16)]
  }

  function PercentBytes(bs: seq<Byte>): string
    decreases |bs|
  {
    if bs == [] then "" else PercentByte(bs[0]) + PercentBytes(bs[1..])
  }

  function EscapeChar(c: char): string {
    if IsUnreserved(c) then [c] else PercentBytes(Utf8(c))
  }

  /** Only unreserved characters and '%': no space, '&', '=', '+' or other query delimiter. */
  predicate IsQuerySafe(t: string) {
    forall k :: 0 <= k < |t| ==> IsUnreserved(t[k]) || t[k] == '%'
  }

  /**
   * Uri.EscapeDataString. The result is query-safe and never shorter than
   * the input; UnescapeEscape below shows that it loses nothing.
   */
  function EscapeDataString(s: string): (r: string)
    ensures IsQuerySafe(r)
    ensures |r| >= |s|
    decreases |s|
  {
    if s == [] then ""
    else
      PercentBytesAlphabet(Utf8(s[0]));
      PercentBytesLength(Utf8(s[0]));
      EscapeChar(s[0]) + EscapeDataString(s[1..])
  }

  /** Escaping works character by character, so it distributes over concatenation. */
  lemma {:induction false} EscapeAppend(a: string, b: string)
    ensures EscapeDataString(a + b) == EscapeDataString(a) + EscapeDataString(b)
    decreases |a|
  {
    if a != [] {
      assert (a + b)[0] == a[0] && (a + b)[1..] == a[1..] + b;
      EscapeAppend(a[1..], b);
    } else {
      assert a + b == b;
    }
  }

  /** A string of unreserved characters only is left as it is. */
  lemma {:induction false} EscapeUnreservedIsIdentity(s: string)
    requires forall k :: 0 <= k < |s| ==> IsUnreserved(s[k])
    ensures EscapeDataString(s) == s
    decreases |s|
  {
    if s != [] {
      EscapeUnreservedIsIdentity(s[1..]);
    }
  }

  lemma {:induction false} PercentBytesAlphabet(bs: seq<Byte>)
    ensures forall k :: 0 <= k < |PercentBytes(bs)| ==> IsUnreserved(PercentBytes(bs)[k]) || PercentBytes(bs)[k] == '%'
    decreases |bs|
  {
    if bs != [] {
      PercentBytesAlphabet(bs[1..]);
      var p := PercentByte(bs[0]);
      assert forall k :: 0 <= k < |p| ==> IsUnreserved(p[k]) || p[k] == '%';
    }
  }


  /** The application token parameter: "Bearer " + token escapes to "Bearer%20" + the escaped token. */
  lemma BearerPrefixEscapes(token: string)
    ensures EscapeDataString("Bearer " + token) == "Bearer%20" + EscapeDataString(token)
  {
    assert "Bearer " + token == "Bearer" + (" " + token);
    EscapeAppend("Bearer", " " + token);
    EscapeAppend(" ", token);
    BearerUnchanged();
    SpaceEscapes();
  }

  lemma BearerUnchanged()
    ensures EscapeDataString("Bearer") == "Bearer"
  {
    EscapeUnreservedIsIdentity("Bearer");
  }

  lemma SpaceEscapes()
    ensures EscapeDataString(" ") == "%20"
  {
    assert Utf8(' ') == [32];
    assert PercentBytes([32]) == PercentByte(32) + PercentBytes([]);
  }

  // ---------------------------------------------------------------------
  // Decoding (RFC 3986 section 2.1 percent-decoding, then UTF-8), the
  // inverse against which the escaping is proved lossless.
  // ---------------------------------------------------------------------

  /** The octet a "%XY" at the front of s denotes. */
  function ReadByte(s: string): Option<Byte> {
    if |s| >= 3 && s[0] == '%' && HexValue(s[1]).Some? && HexValue(s[2]).Some? then
      Some(16 * HexValue(s[1]).value + HexValue(s[2]).value)
    else None
  }

  /** The six payload bits of the UTF-8 continuation octet escaped at position 3 * k. */
  function Continuation(s: string, k: nat): Option<int> {
    if 3 * k <= |s| then
      match ReadByte(s[3 * k..])
      case Some(b) => if 0x80 <= b < 0xC0 then Some(b - 0x80) else None
      case None => None
    else None
  }

  function ScalarChar(v: int): Option<char> {
    if (0 <= v < 0xD800) || (0xE000 <= v < 0x11_0000) then Some(v as char) else None
  }

  /** The character one escaped UTF-8 sequence at the front of s stands for, with the sequence's length. */
  function DecodeEscaped(s: string): (r: Option<(char, nat)>)
    ensures r.Some? ==> 3 <= r.value.1 <= |s|
  {
    match ReadByte(s)
    case None => None
    case Some(b) =>
      if b < 0x80 then Some((b as char, 3))
      else if 0xC0 <= b < 0xE0 then
        if |s| < 6 then None else
        match Continuation(s, 1)
        case None => None
        case Some(x1) =>
          match ScalarChar((b - 0xC0) * 64 + x1)
          case None => None
          case Some(c) => Some((c, 6))
      else if 0xE0 <= b < 0xF0 then
        if |s| < 9 then None else
        match (Continuation(s, 1), Continuation(s, 2))
        case (Some(x1), Some(x2)) =>
          (match ScalarChar((b - 0xE0) * 4096 + x1 * 64 + x2)
           case None => None
           case Some(c) => Some((c, 9)))
        case _ => None
      else if 0xF0 <= b < 0xF8 then
        if |s| < 12 then None else
        match (Continuation(s, 1), Continuation(s, 2), Continuation(s, 3))
        case (Some(x1), Some(x2), Some(x3)) =>
          (match ScalarChar((b - 0xF0) * 262144 + x1 * 4096 + x2 * 64 + x3)
           case None => None
           case Some(c) => Some((c, 12)))
        case _ => None
      else None
  }

  /** Percent-decoding: None when an escape is malformed. */
  function Unescape(s: string): Option<string>
    decreases |s|
  {
    if s == [] then Some("")
    else if s[0] != '%' then
      match Unescape(s[1..])
      case Some(r) => Some([s[0]] + r)
      case None => None
    else
      match DecodeEscaped(s)
      case None => None
      case Some((c, n)) =>
        match Unescape(s[n..])
        case Some(r) => Some([c] + r)
        case None => None
  }

  lemma ReadPercentByte(b: Byte, t: string)
    ensures ReadByte(PercentByte(b) + t) == Some(b)
  {
    var s := PercentByte(b) + t;
    assert s[0] == '%' && s[1] == HexDigit(b / 16) && s[2] == HexDigit(b % 16);
  }

  lemma PercentBytesCons(b: Byte, bs: seq<Byte>, t: string)
    ensures PercentBytes([b] + bs) + t == PercentByte(b) + (PercentBytes(bs) + t)
  {
    assert ([b] + bs)[1..] == bs;
  }

  /** Reading at position 3 * k is reading at 3 * (k - 1) past the first escape. */
  lemma ContinuationShift(s: string, k: nat)
    requires 1 <= k && 3 <= |s|
    ensures Continuation(s, k) == Continuation(s[3..], k - 1)
  {
    if 3 * k <= |s| {
      assert s[3 * k..] == s[3..][3 * (k - 1)..];
    }
  }

  /** The continuation octet escaped at position 3 * k is read back. */
  lemma {:induction false} ReadContinuation(bs: seq<Byte>, k: nat, t: string)
    requires k < |bs| && 0x80 <= bs[k] < 0xC0
    ensures Continuation(PercentBytes(bs) + t, k) == Some(bs[k] - 0x80)
    decreases k
  {
    PercentBytesCons(bs[0], bs[1..], t);
    assert [bs[0]] + bs[1..] == bs;
    var s := PercentBytes(bs) + t;
    if k == 0 {
      ReadPercentByte(bs[0], PercentBytes(bs[1..]) + t);
      assert s[3 * k..] == s;
    } else {
      ReadContinuation(bs[1..], k - 1, t);
      assert s[3..] == PercentBytes(bs[1..]) + t;
      ContinuationShift(s, k);
    }
  }

  lemma {:induction false} PercentBytesLength(bs: seq<Byte>)
    ensures |PercentBytes(bs)| == 3 * |bs|
    decreases |bs|
  {
    if bs != [] {
      PercentBytesLength(bs[1..]);
    }
  }

  lemma Split3(n: int)
    requires 0 <= n
    ensures n == (n / 4096) * 4096 + ((n / 64) % 64) * 64 + n % 64
    ensures (n / 64) / 64 == n / 4096
  {
    assert n == 64 * (n / 64) + n % 64;
    assert n / 64 == 64 * ((n / 64) / 64) + (n / 64) % 64;
  }

  lemma Split4(n: int)
    requires 0 <= n
    ensures n == (n / 262144) * 262144 + ((n / 4096) % 64) * 4096 + ((n / 64) % 64) * 64 + n % 64
  {
    Split3(n);
    assert n / 4096 == 64 * ((n / 4096) / 64) + (n / 4096) % 64;
    assert (n / 4096) / 64 == n / 262144;
  }

  /** The escaped lead octet of a character's encoding is read back first. */
  lemma ReadLead(c: char, t: string)
    ensures |PercentBytes(Utf8(c)) + t| == 3 * |Utf8(c)| + |t|
    ensures ReadByte(PercentBytes(Utf8(c)) + t) == Some(Utf8(c)[0])
  {
    var bs := Utf8(c);
    PercentBytesLength(bs);
    PercentBytesCons(bs[0], bs[1..], t);
    assert [bs[0]] + bs[1..] == bs;
    ReadPercentByte(bs[0], PercentBytes(bs[1..]) + t);
  }

  lemma DecodeTwo(c: char, t: string)
    requires 0x80 <= c as int < 0x800
    ensures DecodeEscaped(PercentBytes(Utf8(c)) + t) == Some((c, 6))
  {
    var bs := Utf8(c);
    ReadLead(c, t);
    ReadContinuation(bs, 1, t);
    assert (bs[0] as int - 0xC0) * 64 + (bs[1] as int - 0x80) == c as int;
  }

  /** The octets of a three-octet encoding carry the character's bits. */
  lemma Utf8ThreeBits(c: char)
    requires 0x800 <= c as int < 0x10000
    ensures 0xE0 <= Utf8(c)[0] < 0xF0 && 0x80 <= Utf8(c)[1] < 0xC0 && 0x80 <= Utf8(c)[2] < 0xC0
    ensures (Utf8(c)[0] as int - 0xE0) * 4096 + (Utf8(c)[1] as int - 0x80) * 64 + (Utf8(c)[2] as int - 0x80) == c as int
  {
    Split3(c as int);
  }

  /** The octets of a four-octet encoding carry the character's bits. */
  lemma Utf8FourBits(c: char)
    requires 0x10000 <= c as int
    ensures 0xF0 <= Utf8(c)[0] < 0xF8 && 0x80 <= Utf8(c)[1] < 0xC0
    ensures 0x80 <= Utf8(c)[2] < 0xC0 && 0x80 <= Utf8(c)[3] < 0xC0
    ensures (Utf8(c)[0] as int - 0xF0) * 262144 + (Utf8(c)[1] as int - 0x80) * 4096
            + (Utf8(c)[2] as int - 0x80) * 64 + (Utf8(c)[3] as int - 0x80) == c as int
  {
    Split4(c as int);
  }

  lemma DecodeThree(c: char, t: string)
    requires 0x800 <= c as int < 0x10000
    ensures DecodeEscaped(PercentBytes(Utf8(c)) + t) == Some((c, 9))
  {
    var bs := Utf8(c);
    Utf8ThreeBits(c);
    ReadLead(c, t);
    ReadContinuation(bs, 1, t);
    ReadContinuation(bs, 2, t);
  }

  lemma DecodeFour(c: char, t: string)
    requires 0x10000 <= c as int
    ensures DecodeEscaped(PercentBytes(Utf8(c)) + t) == Some((c, 12))
  {
    var bs := Utf8(c);
    Utf8FourBits(c);
    ReadLead(c, t);
    ReadContinuation(bs, 1, t);
    ReadContinuation(bs, 2, t);
    ReadContinuation(bs, 3, t);
  }

  /** One escaped character decodes back to itself. */
  lemma DecodeEscapedChar(c: char, t: string)
    ensures DecodeEscaped(PercentBytes(Utf8(c)) + t) == Some((c, 3 * |Utf8(c)|))
  {
    var n := c as int;
    if n < 0x80 {
      ReadLead(c, t);
      assert (Utf8(c)[0] as char) == c;
    } else if n < 0x800 {
      DecodeTwo(c, t);
    } else if n < 0x10000 {
      DecodeThree(c, t);
    } else {
      DecodeFour(c, t);
    }
  }

  /** Decoding one escaped character in front of a decodable rest. */
  lemma UnescapePercentChar(c: char, rest: string, r: string)
    requires Unescape(rest) == Some(r)
    ensures Unescape(PercentBytes(Utf8(c)) + rest) == Some([c] + r)
  {
    var bs := Utf8(c);
    var e := PercentBytes(bs) + rest;
    DecodeEscapedChar(c, rest);
    PercentBytesLength(bs);
    PercentBytesCons(bs[0], bs[1..], rest);
    assert [bs[0]] + bs[1..] == bs;
    assert e[0] == '%';
    assert e[3 * |bs|..] == rest;
  }

  /** Escaping loses nothing: decoding the escaped string gives the original back. */
  lemma {:induction false} UnescapeEscape(s: string)
    ensures Unescape(EscapeDataString(s)) == Some(s)
    decreases |s|
  {
    if s != [] {
      var c := s[0];
      var rest := EscapeDataString(s[1..]);
      UnescapeEscape(s[1..]);
      var e := EscapeDataString(s);
      assert e == EscapeChar(c) + rest;
      if IsUnreserved(c) {
        assert e[0] == c && e[1..] == rest;
      } else {
        UnescapePercentChar(c, rest, s[1..]);
      }
      assert [c] + s[1..] == s;
    }
  }
}
