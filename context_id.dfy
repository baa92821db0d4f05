/**
 The 32-bit ARMv6 context id: a generation ("process ID" in the hardware
 manual) in the high 24 bits and an 8-bit ASID in the low bits, and the
 staleness test that `check_context` applies to it.
 */
module ContextId {

  /** A 32-bit machine word, as `unsigned int` on 32-bit ARM. */
  type Word = bv32

  /** ASID_BITS: width of the hardware address-space tag. */
  const AsidBits: nat := 8

  /**
   ASID_MASK = (~0) << ASID_BITS: the generation bits of a context id.
   The shifts below are written with the literal 8 (= AsidBits), which the
   solver handles far better than a shift by a named constant;
   `HeaderConstants` proves the two spellings agree.
   */
  const AsidMask: Word := 0xFFFF_FF00

  /** ASID_FIRST_VERSION = 1 << ASID_BITS: the first id of generation 1. */
  const AsidFirstVersion: Word := 0x100

  /** The constants above are the header's shift expressions. */
  lemma HeaderConstants()
    ensures AsidMask == !(0 as Word) << AsidBits
    ensures AsidFirstVersion == 1 << AsidBits
  {
  }

  /** The ASID tag carried by a context id (its low ASID_BITS bits). */
  function Asid(id: Word): Word
  {
    id & !AsidMask
  }

  /** The ASID is the low byte of the id. */
  lemma AsidBitsOfId(id: Word)
    ensures Asid(id) <= 0xFF
    ensures Asid(id) == id & 0xFF
  {
  }

  /** The generation of a context id (the bits above the ASID). */
  function Generation(id: Word): Word
  {
    id >> 8
  }

  /** The generation fits in the 24 bits above the ASID and is exactly those bits of the id. */
  lemma GenerationBits(id: Word)
    ensures Generation(id) <= 0xFF_FFFF
    ensures Generation(id) << 8 == id & AsidMask
  {
  }

  /** Builds the context id that carries generation `g` and tag `a`. */
  function Pack(g: Word, a: Word): (id: Word)
    requires g <= 0xFF_FFFF && a <= 0xFF
    ensures Generation(id) == g && Asid(id) == a
  {
    (g << 8) | a
  }

  /** A context id is the packing of its own generation and ASID. */
  lemma PackUnpack(id: Word)
    ensures Pack(Generation(id), Asid(id)) == id
  {
  }

  /** Shifting out the low byte commutes with exclusive or. */
  lemma XorShift(a: Word, b: Word)
    ensures ((a ^ b) >> 8 != 0) == (a >> 8 != b >> 8)
  {
  }

  /**
   The test of `check_context`: the id held by an mm is stale against
   `cpu_last_asid` exactly when the two differ above the ASID bits.
   */
  function NeedsNewContext(id: Word, lastAsid: Word): (stale: bool)
    ensures stale <==> Generation(id) != Generation(lastAsid)
  {
    XorShift(id, lastAsid);
    (id ^ lastAsid) >> 8 != 0
  }

  /** Two ids that differ only in their ASID bits never ask for a new context. */
  lemma AsidBitsAloneNeverStale(id: Word, lastAsid: Word)
    requires id & AsidMask == lastAsid & AsidMask
    ensures !NeedsNewContext(id, lastAsid)
  {
  }

  /**
   The id every mm starts with (generation 0, ASID 0) is stale against any
   live generation, so the first activation of an mm always allocates.
   */
  lemma InitialContextIsStale(lastAsid: Word)
    requires Generation(lastAsid) != 0
    ensures NeedsNewContext(0, lastAsid)
  {
  }

  /** The constants of the header and three worked comparisons. */
  lemma ConstantsAndExamples()
    ensures Generation(AsidFirstVersion) == 1 && Asid(AsidFirstVersion) == 0
    ensures NeedsNewContext(0, 256)
    ensures !NeedsNewContext(257, 257)
    ensures !NeedsNewContext(257, 300)
    ensures Generation(300) == 1 && Asid(300) == 44
  {
  }
}
