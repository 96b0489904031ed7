/** 128-bit identifiers as Python's `uuid.UUID` handles them: the string form
    `str(u)` (32 lower-case hex digits grouped 8-4-4-4-12, the layout of
    section 3 of RFC 4122) and the parser behind `uuid.UUID(s)`. */
module Uuids {
  import opened Wrappers
  import Text

  newtype Nibble = x: int | 0 <= x < 16

  /** A UUID as its 32 hexadecimal digits, most significant first. */
  type Uuid = s: seq<Nibble> | |s| == 32 witness seq(32, _ => 0 as Nibble)

  /** The client's `UUID` alias: either a `uuid.UUID` object or a plain string. */
  datatype UuidValue = UuidObj(u: Uuid) | UuidStr(s: string)

  predicate IsHexChar(c: char) {
    '0' <= c <= '9' || 'a' <= c <= 'f' || 'A' <= c <= 'F'
  }

  /** The lower-case digit that `str(uuid.UUID)` prints for a nibble. */
  function HexDigit(n: Nibble): (c: char)
    ensures IsHexChar(c) && c != '-' && c != ':' && c != '{' && c != '}' && c != '/'
  {
    if n < 10 then ('0' as int + n as int) as char else ('a' as int + n as int - 10) as char
  }

  function HexValue(c: char): (n: Nibble)
    requires IsHexChar(c)
  {
    if '0' <= c <= '9' then (c as int - '0' as int) as Nibble
    else if 'a' <= c <= 'f' then (c as int - 'a' as int + 10) as Nibble
    else (c as int - 'A' as int + 10) as Nibble
  }

  lemma HexValueOfDigit(n: Nibble)
    ensures HexValue(HexDigit(n)) == n
  {
  }

  function Hex(ns: seq<Nibble>): (r: string)
    ensures |r| == |ns|
    ensures forall i :: 0 <= i < |ns| ==> r[i] == HexDigit(ns[i])
  {
    seq(|ns|, i requires 0 <= i < |ns| => HexDigit(ns[i]))
  }

  /** `str(u)`: 8-4-4-4-12 hex digits separated by hyphens. */
  function Format(u: Uuid): (r: string)
    ensures |r| == 36
  {
    Hex(u[..8]) + "-" + Hex(u[8..12]) + "-" + Hex(u[12..16]) + "-" + Hex(u[16..20]) + "-" + Hex(u[20..])
  }

  /** `str(v)` for the client's `UUID` alias. */
  function UuidString(v: UuidValue): string {
    match v
    case UuidObj(u) => Format(u)
    case UuidStr(s) => s
  }

  /** `s.replace(pat, '')`: every non-overlapping occurrence, scanned left to right, removed. */
  function RemoveAll(s: string, pat: string): string
    requires |pat| > 0
    decreases |s|
  {
    if |s| < |pat| then s
    else if s[..|pat|] == pat then RemoveAll(s[|pat|..], pat)
    else [s[0]] + RemoveAll(s[1..], pat)
  }

  predicate IsBrace(c: char) { c == '{' || c == '}' }

  /** `s.strip('{}')` */
  function StripBraces(s: string): string
    decreases |s|
  {
    if s == [] then s
    else if IsBrace(s[0]) then StripBraces(s[1..])
    else if IsBrace(s[|s| - 1]) then StripBraces(s[..|s| - 1])
    else s
  }

  /** `s.replace('-', '')` */
  function RemoveHyphens(s: string): (r: string)
    ensures '-' !in r
  {
    if s == [] then []
    else if s[0] == '-' then RemoveHyphens(s[1..])
    else [s[0]] + RemoveHyphens(s[1..])
  }

  /** What `uuid.UUID(s)` is left with before it reads the digits. */
  function Canonical(s: string): string {
    RemoveHyphens(StripBraces(RemoveAll(RemoveAll(s, "urn:"), "uuid:")))
  }

  /** `uuid.UUID(s)`: the UUID whose 32 hex digits remain once the 'urn:' and
      'uuid:' tags, the surrounding braces and the hyphens are removed; None
      where Python raises ValueError. */
  function Parse(s: string): (r: Option<Uuid>)
    ensures r.Some? <==> |Canonical(s)| == 32 && forall i :: 0 <= i < 32 ==> IsHexChar(Canonical(s)[i])
    ensures r.Some? ==> forall i :: 0 <= i < 32 ==> HexDigit(r.value[i]) == Text.LowerChar(Canonical(s)[i])
  {
    var h := Canonical(s);
    if |h| == 32 && forall i :: 0 <= i < 32 ==> IsHexChar(h[i]) then
      Some(seq(32, i requires 0 <= i < 32 => HexValue(h[i])))
    else None
  }

  lemma {:induction false} RemoveAllWithoutColon(s: string, pat: string)
    requires |pat| > 0 && ':' in pat && ':' !in s
    ensures RemoveAll(s, pat) == s
    decreases |s|
  {
    if |s| >= |pat| {
      assert s[..|pat|] != pat by {
        var k :| 0 <= k < |pat| && pat[k] == ':';
        assert s[..|pat|][k] == s[k];
      }
      RemoveAllWithoutColon(s[1..], pat);
      assert [s[0]] + s[1..] == s;
    }
  }

  lemma {:induction false} RemoveHyphensAppend(a: string, b: string)
    ensures RemoveHyphens(a + b) == RemoveHyphens(a) + RemoveHyphens(b)
    decreases |a|
  {
    if a != [] {
      assert (a + b)[0] == a[0];
      assert (a + b)[1..] == a[1..] + b;
      RemoveHyphensAppend(a[1..], b);
    } else {
      assert a + b == b;
    }
  }

  lemma {:induction false} RemoveHyphensOfHex(ns: seq<Nibble>)
    ensures RemoveHyphens(Hex(ns)) == Hex(ns)
    decreases |ns|
  {
    if ns != [] {
      assert Hex(ns)[1..] == Hex(ns[1..]);
      RemoveHyphensOfHex(ns[1..]);
    }
  }

  lemma HexAppend(a: seq<Nibble>, b: seq<Nibble>)
    ensures Hex(a) + Hex(b) == Hex(a + b)
  {
  }

  /** Dropping the hyphen before a group of digits keeps the digits. */
  lemma RemoveHyphensJoin(x: string, ns: seq<Nibble>)
    ensures RemoveHyphens(x + "-" + Hex(ns)) == RemoveHyphens(x) + Hex(ns)
  {
    RemoveHyphensAppend(x + "-", Hex(ns));
    RemoveHyphensAppend(x, "-");
    RemoveHyphensOfHex(ns);
  }

  lemma FormatWithoutHyphens(u: Uuid)
    ensures RemoveHyphens(Format(u)) == Hex(u)
  {
    var a, b, c, d, e := u[..8], u[8..12], u[12..16], u[16..20], u[20..];
    var x1 := Hex(a);
    RemoveHyphensOfHex(a);
    var x2 := x1 + "-" + Hex(b);
    RemoveHyphensJoin(x1, b);
    HexAppend(a, b);
    var x3 := x2 + "-" + Hex(c);
    RemoveHyphensJoin(x2, c);
    HexAppend(a + b, c);
    var x4 := x3 + "-" + Hex(d);
    RemoveHyphensJoin(x3, d);
    HexAppend(a + b + c, d);
    var x5 := x4 + "-" + Hex(e);
    RemoveHyphensJoin(x4, e);
    HexAppend(a + b + c + d, e);
    assert Format(u) == x5;
    assert a + b + c + d + e == u;
  }

  lemma FormatHasNoTags(u: Uuid)
    ensures ':' !in Format(u)
    ensures !IsBrace(Format(u)[0]) && !IsBrace(Format(u)[35])
  {
    var f := Format(u);
    forall i | 0 <= i < 36 ensures f[i] != ':' {
      if i < 8 { assert f[i] == Hex(u[..8])[i]; }
      else if i == 8 || i == 13 || i == 18 || i == 23 { }
      else if i < 13 { assert f[i] == Hex(u[8..12])[i - 9]; }
      else if i < 18 { assert f[i] == Hex(u[12..16])[i - 14]; }
      else if i < 23 { assert f[i] == Hex(u[16..20])[i - 19]; }
      else { assert f[i] == Hex(u[20..])[i - 24]; }
    }
    assert f[0] == Hex(u[..8])[0];
    assert f[35] == Hex(u[20..])[11];
  }

  lemma CanonicalOfFormat(u: Uuid)
    ensures Canonical(Format(u)) == Hex(u)
  {
    var f := Format(u);
    FormatHasNoTags(u);
    RemoveAllWithoutColon(f, "urn:");
    RemoveAllWithoutColon(f, "uuid:");
    assert StripBraces(f) == f;
    FormatWithoutHyphens(u);
  }

  /** Formatting and then parsing gives back the same UUID: `UUID(str(u)) == u`. */
  lemma ParseFormat(u: Uuid)
    ensures Parse(Format(u)) == Some(u)
  {
    CanonicalOfFormat(u);
    var h := Hex(u);
    var p := seq(32, i requires 0 <= i < 32 => HexValue(h[i]));
    forall i | 0 <= i < 32 ensures p[i] == u[i] {
      HexValueOfDigit(u[i]);
    }
    assert p == u;
  }

  /** `str` is injective on UUID objects. */
  lemma FormatInjective(u: Uuid, v: Uuid)
    requires Format(u) == Format(v)
    ensures u == v
  {
    ParseFormat(u);
    ParseFormat(v);
  }
}
