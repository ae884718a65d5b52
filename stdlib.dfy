// The two compiler-inferred functions the bare-metal runtime provides
// itself: a byte-wise `memcpy` and the libiberty `memset`. Memory is an
// array of bytes; `dest` and `src` are either distinct arrays or the same
// array, in which case every byte is copied onto itself.
module Stdlib {

  /** The value of an `unsigned char`. */
  type Byte = x: int | 0 <= x < 256

  /** The byte C stores for an `int` converted to `unsigned char`: the one byte congruent to it modulo 256. */
  function ToUnsignedChar(val: int): (b: Byte)
    ensures (val - b) % 256 == 0
  {
    val % 256
  }

  /** `memcpy`: copy the first `n` bytes of `src` to `dest`, lowest index first. */
  method Memcpy(dest: array<Byte>, src: array<Byte>, n: nat)
    requires n <= dest.Length && n <= src.Length
    modifies dest
    ensures dest[..n] == src[..n] == old(src[..n])
    ensures dest[n..] == old(dest[n..])
  {
    var i := 0;
    while i < n
      invariant 0 <= i <= n
      invariant dest[..i] == src[..i] == old(src[..i])
      invariant dest[i..] == old(dest[i..])
      invariant src[i..] == old(src[i..])
    {
      dest[i] := src[i];
      i := i + 1;
    }
  }

  /** `memset`: store `val`, converted to `unsigned char`, into the first `len` bytes, and return `dest`. */
  method Memset(dest: array<Byte>, val: int, len: nat) returns (r: array<Byte>)
    requires len <= dest.Length
    modifies dest
    ensures r == dest
    ensures forall i :: 0 <= i < len ==> dest[i] == ToUnsignedChar(val)
    ensures dest[len..] == old(dest[len..])
  {
    var ptr := 0;
    var left := len;
    while left > 0
      invariant ptr + left == len
      invariant forall i :: 0 <= i < ptr ==> dest[i] == ToUnsignedChar(val)
      invariant dest[ptr..] == old(dest[ptr..])
    {
      left := left - 1;
      dest[ptr] := ToUnsignedChar(val);
      ptr := ptr + 1;
    }
    return dest;
  }
}
