/**
 * uid_to_string (src/fw/main.cpp): a UID of up to seven bytes becomes an
 * upper-case hexadecimal string, two digits per byte, NUL-terminated in the
 * caller's buffer.
 */
module UidString {
  import opened Hal

  /** The upper-case hexadecimal digit of a nibble. */
  function HexChar(d: nat): (c: char)
    requires d < 16
    ensures IsHexDigit(c)
  {
    if d < 10 then ('0' as int + d) as char else ('A' as int + d - 10) as char
  }

  predicate IsHexDigit(c: char) {
    '0' <= c <= '9' || 'A' <= c <= 'F'
  }

  function HexValue(c: char): (v: nat)
    requires IsHexDigit(c)
    ensures v < 16 && HexChar(v) == c
  {
    if c <= '9' then c as int - '0' as int else c as int - 'A' as int + 10
  }

  /** "%02X" of one byte: high nibble first. */
  function ByteHex(b: byte): string {
    [HexChar(b / 16), HexChar(b % 16)]
  }

  /** The hexadecimal text of a UID. */
  function Hex(uid: seq<byte>): string
    decreases |uid|
  {
    if uid == [] then "" else Hex(uid[..|uid| - 1]) + ByteHex(uid[|uid| - 1])
  }

  predicate IsHexText(s: string) {
    |s| % 2 == 0 && forall i :: 0 <= i < |s| ==> IsHexDigit(s[i])
  }

  /** Reads a hexadecimal text back into bytes. */
  function Unhex(s: string): seq<byte>
    requires IsHexText(s)
    decreases |s|
  {
    if s == [] then []
    else Unhex(s[..|s| - 2]) + [HexValue(s[|s| - 2]) * 16 + HexValue(s[|s| - 1])]
  }

  /** Two upper-case hex digits per byte, byte k at positions 2k and 2k+1. */
  lemma {:induction false} HexShape(uid: seq<byte>)
    ensures |Hex(uid)| == 2 * |uid|
    ensures IsHexText(Hex(uid))
    ensures forall k :: 0 <= k < |uid| ==>
              Hex(uid)[2 * k] == HexChar(uid[k] / 16) && Hex(uid)[2 * k + 1] == HexChar(uid[k] % 16)
    decreases |uid|
  {
    if uid != [] {
      var init := uid[..|uid| - 1];
      HexShape(init);
      forall k | 0 <= k < |uid|
        ensures Hex(uid)[2 * k] == HexChar(uid[k] / 16) && Hex(uid)[2 * k + 1] == HexChar(uid[k] % 16)
      {
        if k < |init| {
          assert uid[k] == init[k];
        }
      }
    }
  }

  /** The text decodes back to the UID. */
  lemma {:induction false} UnhexHex(uid: seq<byte>)
    ensures IsHexText(Hex(uid)) && Unhex(Hex(uid)) == uid
    decreases |uid|
  {
    if uid != [] {
      var init, b := uid[..|uid| - 1], uid[|uid| - 1];
      UnhexHex(init);
      UnhexSnoc(Hex(init), b);
      assert uid == init + [b];
    }
  }

  /** Appending the two digits of a byte appends that byte to the decoding. */
  lemma UnhexSnoc(t: string, b: byte)
    requires IsHexText(t)
    ensures IsHexText(t + ByteHex(b)) && Unhex(t + ByteHex(b)) == Unhex(t) + [b]
  {
    var s := t + ByteHex(b);
    assert s[..|s| - 2] == t;
    assert HexValue(HexChar(b / 16)) == b / 16 && HexValue(HexChar(b % 16)) == b % 16;
  }

  /** Different UIDs never render to the same string. */
  lemma HexInjective(a: seq<byte>, b: seq<byte>)
    ensures Hex(a) == Hex(b) <==> a == b
  {
    UnhexHex(a);
    UnhexHex(b);
  }

  /**
   * uid_to_string: writes the two digits of each byte (and, as sprintf does,
   * a NUL after them), then terminates the text at index 2 * |uid|.
   */
  method UidToString(uid: seq<byte>, out: array<char>)
    requires |uid| < 0x100
    requires 2 * |uid| < out.Length
    modifies out
    ensures out[..2 * |uid|] == Hex(uid)
    ensures out[2 * |uid|] == '\0'
    ensures out[2 * |uid| + 1..] == old(out[2 * |uid| + 1..])
  {
    var i := 0;
    while i < |uid|
      invariant 0 <= i <= |uid|
      invariant out[..2 * i] == Hex(uid[..i])
      invariant out[2 * i + 1..] == old(out[2 * i + 1..])
      invariant i > 0 ==> out[2 * i] == '\0'
    {
      var pair := ByteHex(uid[i]);
      out[2 * i] := pair[0];
      out[2 * i + 1] := pair[1];
      out[2 * i + 2] := '\0';
      assert uid[..i + 1][..i] == uid[..i];
      assert out[..2 * (i + 1)] == out[..2 * i] + pair;
      i := i + 1;
    }
    out[2 * |uid|] := '\0';
    assert uid[..|uid|] == uid;
  }
}
