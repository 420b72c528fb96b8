/** The hash of a thread id: shifts folded in by exclusive or, and multiplications by odd constants, on 32-bit and
    64-bit words. Each step can be undone, so no two thread ids share a hash. */
module ThreadIdHash {
  // ---- 32-bit words ----

  function Fold16(h: bv32): bv32 { h ^ (h >> 16) }
  function Fold13(h: bv32): bv32 { h ^ (h >> 13) }
  function First32(h: bv32): bv32 { h * 0x85ebca6b }
  function Second32(h: bv32): bv32 { h * 0xc2b2ae35 }

  function Hash32(id: bv32): bv32 { Fold16(Second32(Fold13(First32(Fold16(id))))) }

  // A shift of half the word undoes itself, a shorter one takes a second shift, and a multiplication is undone by the
  // inverse of its constant modulo the word size.
  function Unfold13(h: bv32): bv32 { h ^ (h >> 13) ^ (h >> 26) }
  function Unfirst32(h: bv32): bv32 { h * 0xa5cb9243 }
  function Unsecond32(h: bv32): bv32 { h * 0x7ed1b41d }

  function Unhash32(hash: bv32): bv32 { Fold16(Unfirst32(Unfold13(Unsecond32(Fold16(hash))))) }

  lemma Fold16OfFold16(h: bv32)
    ensures Fold16(h) == (h ^ (h >> 16)) && Fold16((h ^ (h >> 16))) == h
  {}

  lemma Fold16Undoes(h: bv32)
    ensures Fold16(Fold16(h)) == h
  {
    hide Fold16;
    Fold16OfFold16(h);
  }

  lemma Unfold13OfFold13(h: bv32)
    ensures Fold13(h) == (h ^ (h >> 13)) && Unfold13((h ^ (h >> 13))) == h
  {}

  lemma Fold13OfUnfold13(h: bv32)
    ensures Unfold13(h) == (h ^ (h >> 13) ^ (h >> 26)) && Fold13((h ^ (h >> 13) ^ (h >> 26))) == h
  {}

  lemma Unfold13Undoes(h: bv32)
    ensures Unfold13(Fold13(h)) == h && Fold13(Unfold13(h)) == h
  {
    hide Fold13, Unfold13;
    Unfold13OfFold13(h);
    Fold13OfUnfold13(h);
  }

  lemma Unfirst32OfFirst32(h: bv32)
    ensures First32(h) == h * 0x85ebca6b && Unfirst32(h * 0x85ebca6b) == h
  {}

  lemma First32OfUnfirst32(h: bv32)
    ensures Unfirst32(h) == h * 0xa5cb9243 && First32(h * 0xa5cb9243) == h
  {}

  lemma Unfirst32Undoes(h: bv32)
    ensures Unfirst32(First32(h)) == h && First32(Unfirst32(h)) == h
  {
    hide First32, Unfirst32;
    Unfirst32OfFirst32(h);
    First32OfUnfirst32(h);
  }

  lemma Unsecond32OfSecond32(h: bv32)
    ensures Second32(h) == h * 0xc2b2ae35 && Unsecond32(h * 0xc2b2ae35) == h
  {}

  lemma Second32OfUnsecond32(h: bv32)
    ensures Unsecond32(h) == h * 0x7ed1b41d && Second32(h * 0x7ed1b41d) == h
  {}

  lemma Unsecond32Undoes(h: bv32)
    ensures Unsecond32(Second32(h)) == h && Second32(Unsecond32(h)) == h
  {
    hide Second32, Unsecond32;
    Unsecond32OfSecond32(h);
    Second32OfUnsecond32(h);
  }

  /** The 32-bit hash is a bijection. */
  lemma Hash32IsBijective(id: bv32)
    ensures Unhash32(Hash32(id)) == id && Hash32(Unhash32(id)) == id
  {
    hide Fold16, Fold13, First32, Second32, Unfold13, Unfirst32, Unsecond32;
    Fold16Undoes(Second32(Fold13(First32(Fold16(id)))));
    Unsecond32Undoes(Fold13(First32(Fold16(id))));
    Unfold13Undoes(First32(Fold16(id)));
    Unfirst32Undoes(Fold16(id));
    Fold16Undoes(id);
    Fold16Undoes(Unfirst32(Unfold13(Unsecond32(Fold16(id)))));
    Unfirst32Undoes(Unfold13(Unsecond32(Fold16(id))));
    Unfold13Undoes(Unsecond32(Fold16(id)));
    Unsecond32Undoes(Fold16(id));
  }

  // ---- 64-bit words ----

  function Fold33(h: bv64): bv64 { h ^ (h >> 33) }
  function First64(h: bv64): bv64 { h * 0xff51afd7ed558ccd }
  function Second64(h: bv64): bv64 { h * 0xc4ceb9fe1a85ec53 }

  function Hash64(id: bv64): bv64 { Fold33(Second64(Fold33(First64(Fold33(id))))) }

  function Unfirst64(h: bv64): bv64 { h * 0x4f74430c22a54005 }
  function Unsecond64(h: bv64): bv64 { h * 0x9cb4b2f8129337db }

  function Unhash64(hash: bv64): bv64 { Fold33(Unfirst64(Fold33(Unsecond64(Fold33(hash))))) }

  lemma Fold33OfFold33(h: bv64)
    ensures Fold33(h) == (h ^ (h >> 33)) && Fold33((h ^ (h >> 33))) == h
  {}

  lemma Fold33Undoes(h: bv64)
    ensures Fold33(Fold33(h)) == h
  {
    hide Fold33;
    Fold33OfFold33(h);
  }

  lemma Unfirst64OfFirst64(h: bv64)
    ensures First64(h) == h * 0xff51afd7ed558ccd && Unfirst64(h * 0xff51afd7ed558ccd) == h
  {}

  lemma First64OfUnfirst64(h: bv64)
    ensures Unfirst64(h) == h * 0x4f74430c22a54005 && First64(h * 0x4f74430c22a54005) == h
  {}

  lemma Unfirst64Undoes(h: bv64)
    ensures Unfirst64(First64(h)) == h && First64(Unfirst64(h)) == h
  {
    hide First64, Unfirst64;
    Unfirst64OfFirst64(h);
    First64OfUnfirst64(h);
  }

  lemma Unsecond64OfSecond64(h: bv64)
    ensures Second64(h) == h * 0xc4ceb9fe1a85ec53 && Unsecond64(h * 0xc4ceb9fe1a85ec53) == h
  {}

  lemma Second64OfUnsecond64(h: bv64)
    ensures Unsecond64(h) == h * 0x9cb4b2f8129337db && Second64(h * 0x9cb4b2f8129337db) == h
  {}

  lemma Unsecond64Undoes(h: bv64)
    ensures Unsecond64(Second64(h)) == h && Second64(Unsecond64(h)) == h
  {
    hide Second64, Unsecond64;
    Unsecond64OfSecond64(h);
    Second64OfUnsecond64(h);
  }

  /** The 64-bit hash is a bijection. */
  lemma Hash64IsBijective(id: bv64)
    ensures Unhash64(Hash64(id)) == id && Hash64(Unhash64(id)) == id
  {
    hide Fold33, First64, Second64, Unfirst64, Unsecond64;
    Fold33Undoes(Second64(Fold33(First64(Fold33(id)))));
    Unsecond64Undoes(Fold33(First64(Fold33(id))));
    Fold33Undoes(First64(Fold33(id)));
    Unfirst64Undoes(Fold33(id));
    Fold33Undoes(id);
    Fold33Undoes(Unfirst64(Fold33(Unsecond64(Fold33(id)))));
    Unfirst64Undoes(Fold33(Unsecond64(Fold33(id))));
    Fold33Undoes(Unsecond64(Fold33(id)));
    Unsecond64Undoes(Fold33(id));
  }

  /** Distinct thread ids have distinct hashes, and every word is the hash of some id. */
  lemma DistinctIdsDistinctHashes(id32: bv32, other32: bv32, id64: bv64, other64: bv64)
    ensures id32 != other32 <==> Hash32(id32) != Hash32(other32)
    ensures id64 != other64 <==> Hash64(id64) != Hash64(other64)
  {
    hide Hash32, Unhash32, Hash64, Unhash64;
    Hash32IsBijective(id32);
    Hash32IsBijective(other32);
    Hash64IsBijective(id64);
    Hash64IsBijective(other64);
  }
}
