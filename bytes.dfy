/** Raw bytes, as Python `bytes` values. */
module ByteSeq {

  /** One octet. */
  type Byte = b: int | 0 <= b < 256

  type Bytes = seq<Byte>

  /** The ASCII codes of a string of ASCII characters (`b"RIFF"`). */
  function Ascii(s: string): (r: Bytes)
    requires forall i :: 0 <= i < |s| ==> s[i] as int < 256
    ensures |r| == |s| && forall i :: 0 <= i < |s| ==> r[i] == s[i] as int
  {
    seq(|s|, i requires 0 <= i < |s| => s[i] as int as Byte)
  }
}
