/**
 * Byte strings and the repeating-key XOR that both the packet codec
 * (holographic_compression.py `_xor`) and DataProtectionManager.encrypt
 * compute: byte `i` of the output is `data[i] ^ key[i % len(key)]`.
 */
module Bytes {

  type byte = bv8
  type bytes = seq<byte>

  /**
   * The repeating-key XOR. Python evaluates `i % len(key)` only for a
   * non-empty `data`, so an empty key fails (ZeroDivisionError) exactly
   * when there is at least one byte to encrypt.
   */
  function Xor(data: bytes, key: bytes): (r: bytes)
    requires |key| > 0 || |data| == 0
    ensures |r| == |data|
  {
    seq(|data|, i requires 0 <= i < |data| => data[i] ^ key[i % |key|])
  }

  /** Applying the XOR twice with the same key gives back the input. */
  lemma XorInvolution(data: bytes, key: bytes)
    requires |key| > 0 || |data| == 0
    ensures Xor(Xor(data, key), key) == data
  {
    var once := Xor(data, key);
    forall i | 0 <= i < |data|
      ensures Xor(once, key)[i] == data[i]
    {
      var k := key[i % |key|];
      assert once[i] == data[i] ^ k;
      assert (data[i] ^ k) ^ k == data[i];
    }
  }
}
