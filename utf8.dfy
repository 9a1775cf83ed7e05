/**
 * Byte length of a string in UTF-8: Go's `len` on a string counts the
 * bytes of its UTF-8 encoding, not its characters.
 */
module Utf8 {

  /** The number of bytes UTF-8 uses for one Unicode scalar value. */
  function EncodedWidth(c: char): (w: nat)
    ensures 1 <= w <= 4
  {
    var cp := c as int;
    if cp < 0x80 then 1
    else if cp < 0x800 then 2
    else if cp < 0x1_0000 then 3
    else 4
  }

  /** Go's `len(s)`: the UTF-8 byte length of `s`. */
  function ByteLen(s: string): (n: nat)
    ensures |s| <= n <= 4 * |s|
  {
    if |s| == 0 then 0 else EncodedWidth(s[0]) + ByteLen(s[1..])
  }

  /** Byte lengths add up over concatenation. */
  lemma {:induction false} ByteLenAppend(s: string, t: string)
    ensures ByteLen(s + t) == ByteLen(s) + ByteLen(t)
  {
    if |s| == 0 {
      assert s + t == t;
    } else {
      assert (s + t)[1..] == s[1..] + t;
      ByteLenAppend(s[1..], t);
    }
  }

  /** On ASCII text the byte length is the character count. */
  lemma {:induction false} AsciiByteLen(s: string)
    requires forall i :: 0 <= i < |s| ==> (s[i] as int) < 0x80
    ensures ByteLen(s) == |s|
  {
    if |s| > 0 {
      AsciiByteLen(s[1..]);
    }
  }

  /** A two-byte character: "é" is one character and two bytes. */
  lemma AccentExample()
    ensures |"é"| == 1 && ByteLen("é") == 2
  {
  }
}
