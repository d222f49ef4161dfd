/** A byte-addressed address space and the little-endian words C stores in it. */
module Bytes {

  type byte = x: int | 0 <= x < 256

  /** The mapped addresses and what they hold. */
  type Mem = map<nat, byte>

  /** A struct member: its offset and its width in bytes. */
  datatype Field = Field(off: nat, width: nat)

  const U64: nat := 0x1_0000_0000_0000_0000
  const U32: nat := 0x1_0000_0000

  /** The first number too large for a word of the given width. */
  function Limit(width: nat): (r: nat)
    ensures r > 0
  {
    if width == 0 then 1 else 256 * Limit(width - 1)
  }

  lemma Limits()
    ensures Limit(1) == 256 && Limit(4) == U32 && Limit(8) == U64
  {
    assert Limit(4) == U32;
    assert Limit(8) == 256 * 256 * 256 * 256 * Limit(4);
  }

  ghost predicate Mapped(m: Mem, a: nat, n: nat) {
    forall x :: a <= x < a + n ==> x in m
  }

  function Peek(m: Mem, x: nat): byte {
    if x in m then m[x] else 0
  }

  /** The little-endian number held by the width bytes at a. */
  function Load(m: Mem, a: nat, width: nat): nat
    decreases width
  {
    if width == 0 then 0 else Peek(m, a) + 256 * Load(m, a + 1, width - 1)
  }

  /** Byte i of v, the least significant first. */
  function Digit(v: nat, i: nat): byte {
    if i == 0 then v % 256 else Digit(v / 256, i - 1)
  }

  function Store(m: Mem, a: nat, width: nat, v: nat): Mem {
    map x | x in m :: if a <= x < a + width then Digit(v, x - a) else m[x]
  }

  function Get(m: Mem, a: nat, f: Field): nat {
    Load(m, a + f.off, f.width)
  }

  /** The n bytes from a on. */
  function Window(m: Mem, a: nat, n: nat): (s: seq<byte>)
    ensures |s| == n
  {
    seq<byte>(n, i requires 0 <= i < n => Peek(m, a + i))
  }

  /** The n bytes from p on and the k bytes from q on do not overlap. */
  ghost predicate Disjoint(p: nat, n: nat, q: nat, k: nat) {
    p + n <= q || q + k <= p
  }

  /** Two address spaces hold the same n bytes from a on. */
  ghost predicate Same(m: Mem, m': Mem, a: nat, n: nat) {
    forall x :: a <= x < a + n ==> Peek(m', x) == Peek(m, x)
  }

  /** Only bytes of [a, a + n) may differ, and nothing was mapped or unmapped. */
  ghost predicate OnlyAt(m: Mem, m': Mem, a: nat, n: nat) {
    && m'.Keys == m.Keys
    && (forall x: nat :: !(a <= x < a + n) ==> Peek(m', x) == Peek(m, x))
  }

  /** Field f of the struct at a now holds v and nothing else changed. */
  ghost predicate Wrote(m: Mem, m': Mem, a: nat, f: Field, v: nat) {
    && m'.Keys == m.Keys
    && OnlyAt(m, m', a + f.off, f.width)
    && Get(m', a, f) == v
    && (forall b: nat, g: Field {:trigger Get(m', b, g)} ::
          b + g.off + g.width <= a + f.off || a + f.off + f.width <= b + g.off ==> Get(m', b, g) == Get(m, b, g))
  }

  lemma {:induction false} LoadSame(m: Mem, m': Mem, a: nat, width: nat)
    requires Same(m, m', a, width)
    ensures Load(m', a, width) == Load(m, a, width)
    decreases width
  {
    if width > 0 {
      assert Peek(m', a) == Peek(m, a);
      LoadSame(m, m', a + 1, width - 1);
    }
  }

  /** What is stored is what is read back, for every number the width can hold. */
  lemma {:induction false} LoadDigits(m: Mem, a: nat, width: nat, v: nat)
    requires v < Limit(width)
    requires forall x :: a <= x < a + width ==> Peek(m, x) == Digit(v, x - a)
    ensures Load(m, a, width) == v
    decreases width
  {
    if width > 0 {
      assert Peek(m, a) == Digit(v, a - a) == v % 256;
      forall x | a + 1 <= x < a + width ensures Peek(m, x) == Digit(v / 256, x - (a + 1)) {
        assert Peek(m, x) == Digit(v, x - a);
      }
      LoadDigits(m, a + 1, width - 1, v / 256);
    }
  }

  lemma StoreWrote(m: Mem, a: nat, f: Field, v: nat)
    requires Mapped(m, a + f.off, f.width) && v < Limit(f.width)
    ensures Wrote(m, Store(m, a + f.off, f.width, v), a, f, v)
  {
    var m' := Store(m, a + f.off, f.width, v);
    LoadDigits(m', a + f.off, f.width, v);
    forall b: nat, g: Field |
      b + g.off + g.width <= a + f.off || a + f.off + f.width <= b + g.off
      ensures Get(m', b, g) == Get(m, b, g)
    {
      LoadSame(m, m', b + g.off, g.width);
    }
  }

  lemma GetSame(m: Mem, m': Mem, a: nat, f: Field)
    requires Same(m, m', a + f.off, f.width)
    ensures Get(m', a, f) == Get(m, a, f)
  {
    LoadSame(m, m', a + f.off, f.width);
  }

  lemma {:induction false} LoadZero(m: Mem, a: nat, width: nat)
    requires forall x :: a <= x < a + width ==> Peek(m, x) == 0
    ensures Load(m, a, width) == 0
    decreases width
  {
    if width > 0 {
      LoadZero(m, a + 1, width - 1);
    }
  }
}
