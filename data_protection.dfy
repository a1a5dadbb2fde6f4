/** DataProtectionManager: XOR "encryption" of data in transit under a fixed key. */
module DataProtection {

  import opened Bytes

  /** The key is set at construction and only read afterwards, so the manager is a value. */
  datatype DataProtectionManager = DataProtectionManager(key: bytes)
  {
    /** An empty key leaves the data as it is; otherwise byte `i` is XOR'd with `key[i % len(key)]`. */
    function Encrypt(data: bytes): (r: bytes)
      ensures |r| == |data|
      ensures |key| == 0 ==> r == data
      ensures |key| > 0 ==> forall i :: 0 <= i < |data| ==> r[i] == data[i] ^ key[i % |key|]
    {
      if |key| == 0 then data else Xor(data, key)
    }

    /** Decryption is the same XOR. */
    function Decrypt(data: bytes): (r: bytes)
      ensures |r| == |data|
    {
      Encrypt(data)
    }

    lemma DecryptEncrypt(data: bytes)
      ensures Decrypt(Encrypt(data)) == data
    {
      if |key| > 0 {
        XorInvolution(data, key);
      }
    }
  }
}
