/** The bit-level crossover `breed_kitty` uses to derive a child's DNA from
    its two parents' DNA and a 16-byte selector. */
module Genetics {
  import opened KittyTypes

  /** `BIT_MASKS[k]` has only bit `k` set (0 = least significant). */
  const BIT_MASKS: seq<bv8> := [0x01, 0x02, 0x04, 0x08, 0x10, 0x20, 0x40, 0x80]

  /** Bit `k` of a byte is set. */
  predicate Bit(x: bv8, k: nat)
    requires k < 8
  {
    x & BIT_MASKS[k] != 0
  }

  /** One byte of the crossover: `(sel & a) | (!sel & b)`. */
  function MixByte(sel: bv8, a: bv8, b: bv8): bv8
  {
    (sel & a) | (!sel & b)
  }

  /** Each bit of a mixed byte comes from `a` where the selector bit is set and
      from `b` where it is clear. */
  lemma MixByteBit(sel: bv8, a: bv8, b: bv8, k: nat)
    requires k < 8
    ensures Bit(MixByte(sel, a, b), k) == if Bit(sel, k) then Bit(a, k) else Bit(b, k)
  {
    var m := BIT_MASKS[k];
    assert MixByte(sel, a, b) & m == (sel & m & a) | (!sel & m & b);
    // `m` has a single bit, so `sel & m` is either `m` or zero
    assert sel & m == m || sel & m == 0 by {
      if k == 0 {} else if k == 1 {} else if k == 2 {} else if k == 3 {}
      else if k == 4 {} else if k == 5 {} else if k == 6 {} else {}
    }
  }

  /** The child DNA `breed_kitty` computes, byte by byte. */
  function Offspring(selector: Dna, dna1: Dna, dna2: Dna): Dna
  {
    seq(DNA_LEN, i requires 0 <= i < DNA_LEN => MixByte(selector[i], dna1[i], dna2[i]))
  }

  /** The crossover law, stated bit by bit: bit `k` of child byte `i` is bit
      `k` of parent 1's byte `i` where the selector bit is 1, and of parent 2's
      otherwise. */
  lemma OffspringBits(selector: Dna, dna1: Dna, dna2: Dna)
    ensures forall i, k :: 0 <= i < DNA_LEN && 0 <= k < 8 ==>
      Bit(Offspring(selector, dna1, dna2)[i], k) ==
        if Bit(selector[i], k) then Bit(dna1[i], k) else Bit(dna2[i], k)
  {
  }

  /** Parents with the same DNA have a child with that DNA, whatever the
      selector. */
  lemma IdenticalParents(selector: Dna, dna: Dna)
    ensures Offspring(selector, dna, dna) == dna
  {
  }

  /** An all-ones selector copies parent 1; an all-zeros selector copies
      parent 2. */
  lemma ExtremeSelectors(dna1: Dna, dna2: Dna)
    ensures Offspring(seq(DNA_LEN, _ => 0xFF), dna1, dna2) == dna1
    ensures Offspring(seq(DNA_LEN, _ => 0), dna1, dna2) == dna2
  {
  }

  /** The loop of `breed_kitty`: fill a zeroed 16-byte buffer one byte at a
      time with the crossover of the parents' bytes. */
  method Crossover(selector: Dna, dna1: Dna, dna2: Dna) returns (newDna: Dna)
    ensures newDna == Offspring(selector, dna1, dna2)
    ensures forall i, k :: 0 <= i < DNA_LEN && 0 <= k < 8 ==>
      Bit(newDna[i], k) == if Bit(selector[i], k) then Bit(dna1[i], k) else Bit(dna2[i], k)
  {
    var buf := new bv8[DNA_LEN](_ => 0);
    for i := 0 to DNA_LEN
      invariant forall j :: 0 <= j < i ==> buf[j] == MixByte(selector[j], dna1[j], dna2[j])
    {
      buf[i] := MixByte(selector[i], dna1[i], dna2[i]);
    }
    newDna := buf[..];
    OffspringBits(selector, dna1, dna2);
  }
}
