/**
 The byte memory shared by the tracer and its tracee, and the 64-bit little-endian words that
 ptrace and direct loads move in and out of it.
 */
module Words {
  type Word64 = x: int | 0 <= x < 0x1_0000_0000_0000_0000

  /** The mapped memory; an address is an index. */
  type Memory = seq<bv8>

  /** The eight bytes of a word as they lie in memory, least significant first. */
  type Octets = b: seq<bv8> | |b| == 8 witness [0, 0, 0, 0, 0, 0, 0, 0]

  /** True when the eight bytes of the word at `a` are mapped. */
  predicate Mapped(mem: Memory, a: Word64) {
    a + 8 <= |mem|
  }

  /** A direct 64-bit load. */
  function Load(mem: Memory, a: Word64): Octets
    requires Mapped(mem, a)
  {
    mem[a..a + 8]
  }

  /** PTRACE_POKEDATA: eight bytes at `a`; an unmapped address leaves memory alone. */
  function Poke(mem: Memory, a: Word64, b: Octets): (r: Memory)
    ensures |r| == |mem|
  {
    if Mapped(mem, a) then mem[..a] + b + mem[a + 8..] else mem
  }

  /** Byte by byte. */
  lemma PokedByte(mem: Memory, a: Word64, b: Octets, k: nat)
    requires k < |mem|
    ensures Poke(mem, a, b)[k] == if Mapped(mem, a) && a <= k < a + 8 then b[k - a] else mem[k]
  {
  }

  /** The bytes of a word. */
  function ToOctets(w: bv64): Octets {
    [(w & 0xFF) as bv8, ((w >> 8) & 0xFF) as bv8, ((w >> 16) & 0xFF) as bv8, ((w >> 24) & 0xFF) as bv8,
     ((w >> 32) & 0xFF) as bv8, ((w >> 40) & 0xFF) as bv8, ((w >> 48) & 0xFF) as bv8, ((w >> 56) & 0xFF) as bv8]
  }

  /** The word that bytes stand for. */
  function ToWord(b: Octets): bv64 {
    Join8(b[0], b[1], b[2], b[3], b[4], b[5], b[6], b[7])
  }

  function Join8(b0: bv8, b1: bv8, b2: bv8, b3: bv8, b4: bv8, b5: bv8, b6: bv8, b7: bv8): bv64 {
    (b0 as bv64) | ((b1 as bv64) << 8) | ((b2 as bv64) << 16) | ((b3 as bv64) << 24)
    | ((b4 as bv64) << 32) | ((b5 as bv64) << 40) | ((b6 as bv64) << 48) | ((b7 as bv64) << 56)
  }

  lemma OctetsOfJoin(b0: bv8, b1: bv8, b2: bv8, b3: bv8, b4: bv8, b5: bv8, b6: bv8, b7: bv8)
    ensures ToOctets(Join8(b0, b1, b2, b3, b4, b5, b6, b7)) == [b0, b1, b2, b3, b4, b5, b6, b7]
  {
  }

  /** Loading a word into a register and storing it back changes nothing. */
  lemma OctetsRoundTrip(b: Octets)
    ensures ToOctets(ToWord(b)) == b
  {
    OctetsOfJoin(b[0], b[1], b[2], b[3], b[4], b[5], b[6], b[7]);
  }

  lemma ToOctetsInjective(v: bv64, w: bv64)
    requires ToOctets(v) == ToOctets(w)
    ensures v == w
  {
    JoinOfOctets(v);
    JoinOfOctets(w);
  }

  lemma JoinOfOctets(w: bv64)
    ensures ToWord(ToOctets(w)) == w
  {
    JoinOfBytes(w);
  }

  lemma JoinOfBytes(w: bv64)
    ensures Join8((w & 0xFF) as bv8, ((w >> 8) & 0xFF) as bv8, ((w >> 16) & 0xFF) as bv8, ((w >> 24) & 0xFF) as bv8,
                  ((w >> 32) & 0xFF) as bv8, ((w >> 40) & 0xFF) as bv8, ((w >> 48) & 0xFF) as bv8, ((w >> 56) & 0xFF) as bv8) == w
  {
  }
}
