/**
  The identifiers that name coordinators, and their text form.

  A coordinator's identifier is a Foundation `UUID`. It leaves the app as its
  `description`: the layout of section 3 of RFC 4122 (hexadecimal digits
  grouped 8-4-4-4-12 and joined by hyphens), with the digits in upper case,
  which is Foundation's choice where the RFC writes lower case. It comes
  back in a callback URL, where `UUID(uuidString:)` reads it again. The
  platform parser is foreign code; the model takes it to accept exactly the
  canonical grammar: 36 characters, hyphens at the four group boundaries and
  hexadecimal digits of either case everywhere else.
*/
module Uuids {
  import opened Options

  /** One hexadecimal digit. */
  type Nibble = x: int | 0 <= x < 16

  /** The 128 bits of a UUID, as 32 hexadecimal digits, most significant first. */
  type Uuid = d: seq<Nibble> | |d| == 32 witness seq(32, _ => 0)

  /** Length of the canonical text form. */
  const TextLength := 36

  /** Upper-case hexadecimal digit for `n`. */
  function HexChar(n: Nibble): (c: char)
  {
    "0123456789ABCDEF"[n]
  }

  /** Value of a hexadecimal digit of either case; `None` for any other character. */
  function HexValue(c: char): (r: Option<Nibble>)
    ensures r.Some? <==> ('0' <= c <= '9' || 'A' <= c <= 'F' || 'a' <= c <= 'f')
  {
    if '0' <= c <= '9' then Some(c as int - '0' as int)
    else if 'A' <= c <= 'F' then Some(c as int - 'A' as int + 10)
    else if 'a' <= c <= 'f' then Some(c as int - 'a' as int + 10)
    else None
  }

  lemma HexValueOfHexChar(n: Nibble)
    ensures HexValue(HexChar(n)) == Some(n)
  {
  }

  /** Upper-case hexadecimal text of a run of digits. */
  function Hex(d: seq<Nibble>): (s: string)
    ensures |s| == |d|
  {
    seq(|d|, i requires 0 <= i < |d| => HexChar(d[i]))
  }

  /** Reads a run of hexadecimal digits; `None` as soon as one character is not one. */
  function ParseHex(t: string): (r: Option<seq<Nibble>>)
    ensures r.Some? <==> forall i :: 0 <= i < |t| ==> HexValue(t[i]).Some?
    ensures r.Some? ==> |r.value| == |t| && forall i :: 0 <= i < |t| ==> HexValue(t[i]) == Some(r.value[i])
  {
    if t == [] then Some([])
    else
      match (HexValue(t[0]), ParseHex(t[1..]))
      case (Some(v), Some(rest)) => Some([v] + rest)
      case _ => None
  }

  /** The canonical text form, `UUID.description`. */
  function Format(u: Uuid): (s: string)
    ensures |s| == TextLength
    ensures s[8] == '-' && s[13] == '-' && s[18] == '-' && s[23] == '-'
  {
    Hex(u[..8]) + "-" + Hex(u[8..12]) + "-" + Hex(u[12..16]) + "-" + Hex(u[16..20]) + "-" + Hex(u[20..])
  }

  /** The text with the four group separators taken out. */
  function Digits(s: string): (t: string)
    requires |s| == TextLength
    ensures |t| == 32
  {
    s[..8] + s[9..13] + s[14..18] + s[19..23] + s[24..]
  }

  /** `UUID(uuidString:)`: `None` for any text that is not a UUID. */
  function Parse(s: string): (r: Option<Uuid>)
    ensures r.Some? ==> |s| == TextLength && s[8] == '-' && s[13] == '-' && s[18] == '-' && s[23] == '-'
    ensures r.Some? ==> forall i :: 0 <= i < 32 ==> HexValue(Digits(s)[i]) == Some(r.value[i])
    ensures && |s| == TextLength && s[8] == '-' && s[13] == '-' && s[18] == '-' && s[23] == '-'
            && (forall i :: 0 <= i < 32 ==> HexValue(Digits(s)[i]).Some?)
            ==> r.Some?
  {
    if |s| == TextLength && s[8] == '-' && s[13] == '-' && s[18] == '-' && s[23] == '-' then
      match ParseHex(Digits(s))
      case Some(d) => Some(d)
      case None => None
    else None
  }

  lemma DigitsOfFormat(u: Uuid)
    ensures Digits(Format(u)) == Hex(u)
  {
    var s := Format(u);
    assert s[..8] == Hex(u[..8]);
    assert s[9..13] == Hex(u[8..12]);
    assert s[14..18] == Hex(u[12..16]);
    assert s[19..23] == Hex(u[16..20]);
    assert s[24..] == Hex(u[20..]);
  }

  /** The text the app hands out reads back as the same identifier. */
  lemma ParseFormat(u: Uuid)
    ensures Parse(Format(u)) == Some(u)
  {
    var t := Digits(Format(u));
    DigitsOfFormat(u);
    forall i | 0 <= i < 32 ensures HexValue(t[i]) == Some(u[i]) {
      HexValueOfHexChar(u[i]);
    }
    var d := ParseHex(t).value;
    assert forall i | 0 <= i < 32 :: Some(d[i]) == HexValue(t[i]) == Some(u[i]);
    assert d == u;
  }

  /** Distinct identifiers have distinct text forms. */
  lemma FormatInjective(u: Uuid, v: Uuid)
    requires Format(u) == Format(v)
    ensures u == v
  {
    ParseFormat(u);
    ParseFormat(v);
  }
}
