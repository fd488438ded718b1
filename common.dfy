/** Types of the `common` package shared by several parts of the model. */
module Common {
  import opened Uint64

  /** `common.Hash`: 32 bytes. */
  type Hash = h: Bytes | |h| == 32 witness seq(32, _ => 0)

  /**
   * `common.Address`: a fixed-size byte array. Its size is not part of this
   * model; 21 stands for it, and the lemmas only use that all addresses
   * have the same length.
   */
  const ADDRESS_LENGTH: nat := 21
  type Address = a: Bytes | |a| == ADDRESS_LENGTH witness seq(ADDRESS_LENGTH, _ => 0)

  /** The bytes of an ASCII text, as Go's `[]byte(s)` gives them. */
  function Ascii(s: string): (r: Bytes)
    ensures |r| == |s|
  {
    seq(|s|, i requires 0 <= i < |s| => (s[i] as int) % 256)
  }
}
