/**
 The record identifier of an upload: a `System.Guid`, and the text
 `Guid.ToString()` gives it (the "D" format: 32 lower-case hexadecimal digits
 in groups of 8-4-4-4-12 separated by hyphens). That text is the stem of the
 blob name, the returned file name and both fields of the queue payload.
 */
module Guids {

  type Nibble = n: int | 0 <= n < 16

  /** A GUID, by its 32 hexadecimal digits in the order "D" format shows them. */
  type Guid = s: seq<Nibble> | |s| == 32 witness seq(32, i => 0)

  function HexDigit(n: Nibble): (c: char)
    ensures c != '-' && c != '.' && c != '\\' && c != '/' && c != ':'
  {
    if n < 10 then (48 + n) as char else (97 + n - 10) as char
  }

  function Hex(digits: seq<Nibble>): string {
    seq(|digits|, i requires 0 <= i < |digits| => HexDigit(digits[i]))
  }

  /** `Guid.ToString()`. */
  function ToString(g: Guid): string {
    Hex(g[..8]) + "-" + Hex(g[8..12]) + "-" + Hex(g[12..16]) + "-" + Hex(g[16..20]) + "-" + Hex(g[20..])
  }

  /** Where digit `i` of the GUID stands in its text. */
  function DigitPosition(i: nat): nat {
    if i < 8 then i else if i < 12 then i + 1 else if i < 16 then i + 2 else if i < 20 then i + 3 else i + 4
  }

  /** The text is 36 characters long, has hyphens at the four group
      boundaries, the digits everywhere else, and no `.` and no path
      separator (`\`, `/`, `:`). */
  lemma ToStringLayout(g: Guid)
    ensures |ToString(g)| == 36
    ensures forall i :: 0 <= i < 32 ==> DigitPosition(i) < 36 && ToString(g)[DigitPosition(i)] == HexDigit(g[i])
    ensures ToString(g)[8] == '-' && ToString(g)[13] == '-' && ToString(g)[18] == '-' && ToString(g)[23] == '-'
    ensures forall k :: 0 <= k < 36 ==> ToString(g)[k] != '.'
    ensures forall k :: 0 <= k < 36 ==> ToString(g)[k] != '\\' && ToString(g)[k] != '/' && ToString(g)[k] != ':'
  {
  }

  /** Distinct GUIDs have distinct texts: the text identifies the record. */
  lemma ToStringInjective(a: Guid, b: Guid)
    requires ToString(a) == ToString(b)
    ensures a == b
  {
    ToStringLayout(a);
    ToStringLayout(b);
    forall i | 0 <= i < 32 ensures a[i] == b[i] {
      assert HexDigit(a[i]) == HexDigit(b[i]);
    }
  }
}
