/**
 * Component signatures: a fixed-width bitset (std::bitset in the engine) in
 * which bit i is set when an entity holds a component of type i. A system's
 * signature is the set of component types it requires.
 */
module Signatures {

  /** A signature has one bit per component type: 32 of them. */
  type Signature = bv32

  /** The index of a component type, that is, of one bit of a signature. */
  type ComponentType = bv5

  /** A default-constructed signature: no bit set. */
  const Empty: Signature := 0

  /** The signature holding only component type `i`. */
  function Bit(i: ComponentType): Signature {
    (1 as bv32) << i
  }

  /** Whether bit `i` of `s` is set (std::bitset::test). */
  predicate Has(s: Signature, i: ComponentType) {
    s & Bit(i) != 0
  }

  /** The component types whose bits are set in `s`. */
  ghost function Bits(s: Signature): (r: iset<ComponentType>)
    ensures forall i: ComponentType :: i in r <==> Has(s, i)
  {
    iset i: ComponentType | Has(s, i)
  }

  /** `s` with the bit of component type `i` set (std::bitset::set). */
  function With(s: Signature, i: ComponentType): (r: Signature)
    ensures Bits(r) == Bits(s) + iset{i}
  {
    var r := s | Bit(i);
    forall j: ComponentType ensures Has(r, j) <==> Has(s, j) || j == i {
      HasOr(s, Bit(i), j);
      BitOnly(i, j);
    }
    r
  }

  /**
   * The test a system makes of an entity's signature:
   * (entitySignature & systemSignature) == systemSignature.
   */
  predicate Matches(entity: Signature, required: Signature) {
    entity & required == required
  }

  lemma HasAnd(x: Signature, y: Signature, i: ComponentType)
    ensures Has(x & y, i) <==> Has(x, i) && Has(y, i)
  {
  }

  lemma HasOr(x: Signature, y: Signature, i: ComponentType)
    ensures Has(x | y, i) <==> Has(x, i) || Has(y, i)
  {
    assert (x | y) & Bit(i) == (x & Bit(i)) | (y & Bit(i));
  }

  lemma HasXor(x: Signature, y: Signature, i: ComponentType)
    ensures Has(x ^ y, i) <==> Has(x, i) != Has(y, i)
  {
  }

  lemma BitOnly(i: ComponentType, j: ComponentType)
    ensures Has(Bit(i), j) <==> i == j
  {
  }

  /** A signature with no bit set is the empty signature. */
  lemma NoBits(d: Signature)
    requires forall i: ComponentType :: !Has(d, i)
    ensures d == Empty
  {
    assert !Has(d, 0)
      && !Has(d, 1)
      && !Has(d, 2)
      && !Has(d, 3)
      && !Has(d, 4)
      && !Has(d, 5)
      && !Has(d, 6)
      && !Has(d, 7)
      && !Has(d, 8)
      && !Has(d, 9)
      && !Has(d, 10)
      && !Has(d, 11)
      && !Has(d, 12)
      && !Has(d, 13)
      && !Has(d, 14)
      && !Has(d, 15)
      && !Has(d, 16)
      && !Has(d, 17)
      && !Has(d, 18)
      && !Has(d, 19)
      && !Has(d, 20)
      && !Has(d, 21)
      && !Has(d, 22)
      && !Has(d, 23)
      && !Has(d, 24)
      && !Has(d, 25)
      && !Has(d, 26)
      && !Has(d, 27)
      && !Has(d, 28)
      && !Has(d, 29)
      && !Has(d, 30)
      && !Has(d, 31);
  }

  /** Two signatures with the same bits are equal. */
  lemma Extensionality(x: Signature, y: Signature)
    requires Bits(x) == Bits(y)
    ensures x == y
  {
    var d := x ^ y;
    forall i: ComponentType ensures !Has(d, i) {
      HasXor(x, y, i);
    }
    NoBits(d);
  }

  /**
   * The bitmask test is set inclusion: an entity matches a system iff
   * every component type the system requires is held by the entity.
   */
  lemma MatchesIffSubset(entity: Signature, required: Signature)
    ensures Matches(entity, required) <==> Bits(required) <= Bits(entity)
  {
    forall i: ComponentType ensures Has(entity & required, i) <==> Has(entity, i) && Has(required, i) {
      HasAnd(entity, required, i);
    }
    if Bits(required) <= Bits(entity) {
      Extensionality(entity & required, required);
    }
  }

  /** A system requiring nothing matches every entity. */
  lemma EmptyMatchesAll(entity: Signature)
    ensures Matches(entity, Empty)
  {
  }
}
