/** Bytes and the structure of UTF-8 text, enough to say what removing the
    first character of a Rust String does to its bytes. */
module Utf8 {

  newtype byte = x: int | 0 <= x < 256

  /** The number of bytes of the character a lead byte starts; 0 for a byte
      that cannot start a character. */
  function Width(lead: byte): (w: nat)
    ensures w <= 4
  {
    if lead < 0x80 then 1
    else if lead < 0xC0 then 0
    else if lead < 0xE0 then 2
    else if lead < 0xF0 then 3
    else if lead < 0xF8 then 4
    else 0
  }

  predicate IsContinuation(b: byte) {
    0x80 <= b < 0xC0
  }

  /** The byte structure of UTF-8: each character is a lead byte followed by
      as many continuation bytes as the lead byte announces. (Overlong forms
      and surrogates are not excluded, so every Rust String satisfies this.) */
  predicate Valid(s: seq<byte>)
    decreases |s|
  {
    s == [] ||
    (var w := Width(s[0]);
     0 < w <= |s| &&
     (forall k :: 1 <= k < w ==> IsContinuation(s[k])) &&
     Valid(s[w..]))
  }

  /** `String::remove(0)`: the bytes without the first character. */
  function RemoveFirstChar(s: seq<byte>): (r: seq<byte>)
    requires Valid(s) && s != []
    ensures Valid(r)
    ensures |r| == |s| - Width(s[0]) && r == s[Width(s[0])..]
  {
    s[Width(s[0])..]
  }
}
