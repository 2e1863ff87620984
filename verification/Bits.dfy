/** Bits: fields packed into 32-bit registers. */
module Bits {

  function Field(w: bv32, pos: bv32, mask: bv32): bv32
    requires pos < 32
  {
    (w >> pos) & mask
  }

  predicate Bit(w: bv32, i: bv32)
    requires i < 32
  {
    (w >> i) & 1 == 1
  }

  /** The bit position of number `n`. */
  function Pos(n: nat): (p: bv32)
    requires n < 32
    ensures p < 32 && p as int == n
  {
    FromBv5(n);
    (n as bv5) as bv32
  }

  lemma PosInjective(n: nat, k: nat)
    requires n < 32 && k < 32 && n != k
    ensures Pos(n) != Pos(k)
  {
    FromBv5(n);
    FromBv5(k);
  }

  lemma FromBv5(n: nat)
    requires n < 32
    ensures (n as bv5) as int == n
  {}

  // ----- Slots: fields of equal width, packed from bit 0 -----

  function Slot5(w: bv32, i: bv32): bv32
    requires i < 6
  {
    Field(w, 5 * i, 0x1F)
  }

  function Slot4(w: bv32, i: bv32): bv32
    requires i < 8
  {
    Field(w, i << 2, 0xF)
  }

  function Slot3(w: bv32, i: bv32): bv32
    requires i < 10
  {
    Field(w, 3 * i, 0x7)
  }

  /** Slot `i` cleared, then or-ed with `v`. */
  function WithSlot5(w: bv32, i: bv32, v: bv32): bv32
    requires i < 6
  {
    (w & !(0x1F << (5 * i))) | (v << (5 * i))
  }

  function WithSlot4(w: bv32, i: bv32, v: bv32): bv32
    requires i < 8
  {
    (w & !(0xF << (i << 2))) | (v << (i << 2))
  }

  function WithSlot3(w: bv32, i: bv32, v: bv32): bv32
    requires i < 10
  {
    (w & !(0x7 << (3 * i))) | (v << (3 * i))
  }

  lemma Put5(w: bv32, i: bv32, v: bv32, j: bv32)
    requires i < 6 && j < 6 && v < 32
    ensures Slot5(WithSlot5(w, i, v), j) == if i == j then v else Slot5(w, j)
  {}

  lemma Put4(w: bv32, i: bv32, v: bv32, j: bv32)
    requires i < 8 && j < 8 && v < 16
    ensures Slot4(WithSlot4(w, i, v), j) == if i == j then v else Slot4(w, j)
  {}

  lemma Put3(w: bv32, i: bv32, v: bv32, j: bv32)
    requires i < 10 && j < 10 && v < 8
    ensures Slot3(WithSlot3(w, i, v), j) == if i == j then v else Slot3(w, j)
  {}

  lemma SetMask(w: bv32, m: bv32, i: bv32)
    requires i < 32
    ensures Bit(w | m, i) == (Bit(m, i) || Bit(w, i))
  {}

  lemma ClearMask(w: bv32, m: bv32, i: bv32)
    requires i < 32
    ensures Bit(w & !m, i) == (!Bit(m, i) && Bit(w, i))
  {}

  lemma SetBit(w: bv32, i: bv32, j: bv32)
    requires i < 32 && j < 32
    ensures Bit(w | (1 << i), j) == (i == j || Bit(w, j))
  {}

  lemma ClearBit(w: bv32, i: bv32, j: bv32)
    requires i < 32 && j < 32
    ensures Bit(w & !(1 << i), j) == (i != j && Bit(w, j))
  {}

  /** Bit `n` has become `on`, and no other bit has changed. */
  ghost predicate BitBecame(w: bv32, n: bv32, on: bool, w': bv32)
    requires n < 32
  {
    forall k: bv32 | k < 32 :: Bit(w', k) == if k == n then on else Bit(w, k)
  }

  lemma BitBecameAgain(w: bv32, n: bv32, first: bool, mid: bv32, last: bool, w': bv32)
    requires n < 32 && BitBecame(w, n, first, mid) && BitBecame(mid, n, last, w')
    ensures BitBecame(w, n, last, w')
  {
    hide Bit;
  }

  /** `BitBecame`, for a bit given by its number. */
  ghost predicate BitNumberBecame(w: bv32, n: nat, on: bool, w': bv32) {
    forall k: bv32 | k < 32 :: Bit(w', k) == if k as int == n then on else Bit(w, k)
  }

  lemma SameNumber(k: bv32, n: nat)
    requires n < 32 && k < 32
    ensures k as int == n <==> k == Pos(n)
  {
    hide Pos;
    var p := Pos(n);
    assert (k as int) as bv32 == k && (p as int) as bv32 == p;
  }

  lemma BecameByNumber(w: bv32, n: nat, on: bool, w': bv32)
    requires n < 32 && BitBecame(w, Pos(n), on, w')
    ensures BitNumberBecame(w, n, on, w')
  {
    hide Bit, Pos;
    forall k: bv32 | k < 32 ensures Bit(w', k) == if k as int == n then on else Bit(w, k) {
      SameNumber(k, n);
    }
  }

  /** Sets or clears bit `n`. */
  function Assign(w: bv32, n: bv32, on: bool): (r: bv32)
    requires n < 32
    ensures BitBecame(w, n, on, r)
  {
    AssignBits(w, n, on);
    if on then w | (1 << n) else w & !(1 << n)
  }

  lemma AssignBits(w: bv32, n: bv32, on: bool)
    requires n < 32
    ensures BitBecame(w, n, on, if on then w | (1 << n) else w & !(1 << n))
  {
    forall k: bv32 | k < 32
      ensures Bit(if on then w | (1 << n) else w & !(1 << n), k) == if k == n then on else Bit(w, k)
    {
      SetBit(w, n, k);
      ClearBit(w, n, k);
    }
  }

  /** Two words that agree on every bit are equal: a bit where unequal words differ is found
      by halving the range. */
  lemma SomeBitDiffers(v: bv32, w: bv32) returns (i: bv32)
    requires v != w
    ensures i < 32 && Bit(v, i) != Bit(w, i)
  {
    i := if (v ^ w) & 0xFFFF == 0 then 16 else 0;
    if ((v ^ w) >> i) & 0xFF == 0 { i := i + 8; }
    if ((v ^ w) >> i) & 0xF == 0 { i := i + 4; }
    if ((v ^ w) >> i) & 0x3 == 0 { i := i + 2; }
    if ((v ^ w) >> i) & 0x1 == 0 { i := i + 1; }
  }
}
