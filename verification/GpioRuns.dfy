/** GpioRuns: what any sequence of GPIO_Init calls on a port leaves behind. */
module GpioRuns {
  import opened Bits
  import opened Runs
  import opened Gpio

  ghost predicate IsRun(states: seq<Registers>, calls: seq<PinInit>) {
    && |states| == |calls| + 1
    && forall i :: 0 <= i < |calls| ==> InRange(calls[i]) && Configured(states[i], calls[i], states[i + 1])
  }

  /** Each pin has the nibble of the last call whose mask named it. */
  lemma NibbleAfterRun(states: seq<Registers>, calls: seq<PinInit>, p: bv32)
    requires IsRun(states, calls) && p < 16
    ensures Nibble(states[|calls|], p)
         == FinalValue(calls, c => Names(c, p), NibbleFor, Nibble(states[0], p))
  {
    hide Nibble, NibbleFor, Bit, Names, InRange;
    forall i | 0 <= i < |calls|
      ensures Nibble(states[i + 1], p) == if Names(calls[i], p) then NibbleFor(calls[i]) else Nibble(states[i], p)
    {
      assert Configured(states[i], calls[i], states[i + 1]);
    }
    LastWriter(states, calls, g => Nibble(g, p), c => Names(c, p), NibbleFor);
  }

  /** Each data bit is that of the last pull-up or pull-down call whose mask named the pin. */
  lemma DataBitAfterRun(states: seq<Registers>, calls: seq<PinInit>, p: bv32)
    requires IsRun(states, calls) && p < 32
    ensures Bit(states[|calls|].odr, p)
         == FinalValue(calls, c => Drives(c, p), (c: PinInit) => c.mode.IPU?, Bit(states[0].odr, p))
  {
    hide Nibble, NibbleFor, Bit, Names, InRange, Drives;
    forall i | 0 <= i < |calls|
      ensures Bit(states[i + 1].odr, p) == if Drives(calls[i], p) then calls[i].mode.IPU? else Bit(states[i].odr, p)
    {
      assert Configured(states[i], calls[i], states[i + 1]);
    }
    LastWriter(states, calls, (g: Registers) => Bit(g.odr, p), c => Drives(c, p), (c: PinInit) => c.mode.IPU?);
  }

  /** Mode and speed can be read back from the nibble and the data bit. */
  lemma ModeRecovered(g: Registers, c: PinInit, g': Registers, p: bv32)
    requires InRange(c) && Configured(g, c, g') && p < 16 && Names(c, p)
    ensures Recovered(Nibble(g', p), Bit(g'.odr, p)) == (c.mode, if IsOutput(c.mode) then c.speed else 0)
  {
    hide Nibble, Bit;
    assert Nibble(g', p) == NibbleFor(c);
    assert Drives(c, p) ==> Bit(g'.odr, p) == c.mode.IPU?;
    RecoveredCode(c, Bit(g'.odr, p));
  }

  lemma RecoveredCode(c: PinInit, odr: bool)
    requires InRange(c) && (c.mode.IPU? ==> odr) && (c.mode.IPD? ==> !odr)
    ensures Recovered(NibbleFor(c), odr) == (c.mode, if IsOutput(c.mode) then c.speed else 0)
  {}

  /** A pin named by some call of the run reads back as the last call naming it said. */
  lemma ModeAfterRun(states: seq<Registers>, calls: seq<PinInit>, p: bv32, i: int)
    requires IsRun(states, calls) && p < 16
    requires IsLast(calls, c => Names(c, p), i)
    ensures Recovered(Nibble(states[|calls|], p), Bit(states[|calls|].odr, p))
         == (calls[i].mode, if IsOutput(calls[i].mode) then calls[i].speed else 0)
  {
    hide Nibble, NibbleFor, Bit, Names, Recovered;
    assert Configured(states[i], calls[i], states[i + 1]);
    ModeRecovered(states[i], calls[i], states[i + 1], p);
    Untouched(states[i + 1..], calls[i + 1..], p);
  }

  lemma {:induction false} Untouched(states: seq<Registers>, calls: seq<PinInit>, p: bv32)
    requires IsRun(states, calls) && p < 16
    requires forall i :: 0 <= i < |calls| ==> !Names(calls[i], p)
    ensures Nibble(states[|calls|], p) == Nibble(states[0], p)
    ensures Bit(states[|calls|].odr, p) == Bit(states[0].odr, p)
  {
    hide Nibble, NibbleFor, Bit, Names, InRange;
    if calls != [] {
      var n := |calls| - 1;
      assert Configured(states[n], calls[n], states[n + 1]);
      Untouched(states[..n + 1], calls[..n], p);
    }
  }

  // ----- Calls with disjoint masks commute -----

  lemma EightNibblesDetermine(v: bv32, w: bv32)
    requires forall j: bv32 | j < 8 :: Slot4(v, j) == Slot4(w, j)
    ensures v == w
  {
    assert Slot4(v, 0) == Slot4(w, 0) && Slot4(v, 1) == Slot4(w, 1) && Slot4(v, 2) == Slot4(w, 2);
    assert Slot4(v, 3) == Slot4(w, 3) && Slot4(v, 4) == Slot4(w, 4) && Slot4(v, 5) == Slot4(w, 5);
    assert Slot4(v, 6) == Slot4(w, 6) && Slot4(v, 7) == Slot4(w, 7);
  }

  /** The nibbles and the data bits are all there is to the registers. */
  lemma PinsDetermine(g: Registers, h: Registers)
    requires forall p: bv32 | p < 16 :: Nibble(g, p) == Nibble(h, p)
    requires forall p: bv32 | p < 32 :: Bit(g.odr, p) == Bit(h.odr, p)
    ensures g == h
  {
    hide Slot4, Bit;
    forall j: bv32 | j < 8 ensures Slot4(g.crl, j) == Slot4(h.crl, j) {
      assert Nibble(g, j) == Nibble(h, j);
    }
    forall j: bv32 | j < 8 ensures Slot4(g.crh, j) == Slot4(h.crh, j) {
      assert Nibble(g, j + 8) == Nibble(h, j + 8);
      assert j + 8 - 8 == j;
    }
    EightNibblesDetermine(g.crl, h.crl);
    EightNibblesDetermine(g.crh, h.crh);
    if g.odr != h.odr {
      var p := SomeBitDiffers(g.odr, h.odr);
      assert false;
    }
  }

  lemma DisjointCallsCommute(
      g: Registers, a: PinInit, b: PinInit, ga: Registers, gab: Registers, gb: Registers, gba: Registers)
    requires a.pins & b.pins == 0
    requires Configured(g, a, ga) && Configured(ga, b, gab)
    requires Configured(g, b, gb) && Configured(gb, a, gba)
    ensures gab == gba
  {
    hide Nibble, NibbleFor, Bit;
    forall p: bv32 | p < 16 ensures Nibble(gab, p) == Nibble(gba, p) {
      DisjointPins(a, b, p);
      assert Nibble(ga, p) == if Names(a, p) then NibbleFor(a) else Nibble(g, p);
      assert Nibble(gb, p) == if Names(b, p) then NibbleFor(b) else Nibble(g, p);
    }
    forall p: bv32 | p < 32 ensures Bit(gab.odr, p) == Bit(gba.odr, p) {
      DisjointPins(a, b, p);
      assert Bit(ga.odr, p) == if Drives(a, p) then a.mode.IPU? else Bit(g.odr, p);
      assert Bit(gb.odr, p) == if Drives(b, p) then b.mode.IPU? else Bit(g.odr, p);
    }
    PinsDetermine(gab, gba);
  }

  lemma DisjointPins(a: PinInit, b: PinInit, p: bv32)
    requires a.pins & b.pins == 0 && p < 32
    ensures !(Names(a, p) && Names(b, p))
  {
    DisjointMasks(a.pins, b.pins, p);
  }

  lemma DisjointMasks(v: bv32, w: bv32, p: bv32)
    requires v & w == 0 && p < 32
    ensures !(Bit(v, p) && Bit(w, p))
  {}
}
