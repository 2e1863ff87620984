/** Gpio: the pin configuration registers of a GPIO port. */
module Gpio {
  import opened Bits

  datatype Mode = AIN | IN_FLOATING | IPD | IPU | OUT_OD | OUT_PP | AF_OD | AF_PP

  function Code(m: Mode): bv32 {
    match m
    case AIN => 0x00
    case IN_FLOATING => 0x04
    case IPD => 0x28
    case IPU => 0x48
    case OUT_OD => 0x14
    case OUT_PP => 0x10
    case AF_OD => 0x1C
    case AF_PP => 0x18
  }

  /** Speed codes are 1 (10 MHz), 2 (2 MHz) and 3 (50 MHz). */
  datatype PinInit = PinInit(pins: bv32, mode: Mode, speed: bv32)

  /** The speed is checked for outputs only. */
  predicate InRange(c: PinInit) {
    c.pins <= 0xFFFF && (IsOutput(c.mode) ==> 1 <= c.speed <= 3)
  }

  datatype Registers = Registers(crl: bv32, crh: bv32, odr: bv32)

  // ----- What the registers say of a pin -----

  function Nibble(g: Registers, p: bv32): bv32
    requires p < 16
  {
    if p < 8 then Slot4(g.crl, p) else Slot4(g.crh, p - 8)
  }

  predicate Names(c: PinInit, p: bv32)
    requires p < 32
  {
    Bit(c.pins, p)
  }

  predicate IsOutput(m: Mode) {
    m.OUT_OD? || m.OUT_PP? || m.AF_OD? || m.AF_PP?
  }

  /** The two upper configuration bits of a pin tell the kinds of input and of output apart. */
  function Kind(m: Mode): bv32 {
    match m
    case AIN => 0x0
    case IN_FLOATING => 0x4
    case IPD => 0x8
    case IPU => 0x8
    case OUT_PP => 0x0
    case OUT_OD => 0x4
    case AF_PP => 0x8
    case AF_OD => 0xC
  }

  /** The two lower ones are the speed of an output, and zero for an input. */
  function NibbleFor(c: PinInit): bv32 {
    if IsOutput(c.mode) then WithSpeed(Kind(c.mode), c.speed) else Kind(c.mode)
  }

  function WithSpeed(kind: bv32, speed: bv32): bv32 {
    kind | speed
  }

  /** The low bits of a code, and the one that marks an output. */
  function LowCode(m: Mode): bv32 {
    Code(m) & 0x0F
  }

  predicate MarksOutput(m: Mode) {
    Code(m) & 0x10 != 0
  }

  lemma CodeIsKind(m: Mode)
    ensures LowCode(m) == Kind(m)
    ensures MarksOutput(m) == IsOutput(m)
  {}

  /** The mode and speed that a nibble and an output data bit stand for: pull-up and pull-down
      differ in the data bit alone. */
  function Recovered(nibble: bv32, odr: bool): (Mode, bv32) {
    var cnf := nibble >> 2;
    if nibble & 0x3 != 0 then
      (if cnf == 0 then OUT_PP else if cnf == 1 then OUT_OD else if cnf == 2 then AF_PP else AF_OD, nibble & 0x3)
    else
      (if cnf == 0 then AIN else if cnf == 1 then IN_FLOATING else if odr then IPU else IPD, 0)
  }

  /** The pull call drives the data bit of its pins; other modes leave it. */
  predicate Drives(c: PinInit, p: bv32)
    requires p < 32
  {
    Names(c, p) && (c.mode.IPD? || c.mode.IPU?)
  }

  ghost predicate Configured(g: Registers, c: PinInit, g': Registers) {
    && (forall p: bv32 | p < 16 :: Nibble(g', p) == if Names(c, p) then NibbleFor(c) else Nibble(g, p))
    && (forall p: bv32 | p < 32 :: Bit(g'.odr, p) == if Drives(c, p) then c.mode.IPU? else Bit(g.odr, p))
  }

  lemma NibbleFits(c: PinInit)
    requires InRange(c)
    ensures NibbleFor(c) < 16
  {}

  lemma PinTest(pins: bv32, i: bv32)
    requires i < 32
    ensures (pins & (1 << i) == 1 << i) == Bit(pins, i)
  {}

  lemma NoLowPins(pins: bv32, i: bv32)
    requires pins & 0x00FF == 0 && i < 8
    ensures !Bit(pins, i)
  {}

  lemma NoHighPins(pins: bv32, i: bv32)
    requires pins <= 0x00FF && 8 <= i < 32
    ensures !Bit(pins, i)
  {}

  lemma OnlyPortPins(pins: bv32, i: bv32)
    requires pins <= 0xFFFF && 16 <= i < 32
    ensures !Bit(pins, i)
  {}

  function LowHalf(v: bv32): bv32 {
    v & 0xFFFF
  }

  function HighHalf(v: bv32): bv32 {
    v >> 16
  }

  /** `odr` with the bits of `reset` cleared, then those of `set_` set. */
  function ResetSet(odr: bv32, reset: bv32, set_: bv32): bv32 {
    (odr & !reset) | set_
  }

  /** A write to BRR clears the data bits of its lower half; one to BSRR sets those of its lower half and
      clears those of its upper half, setting having priority. */
  function AfterBrr(odr: bv32, v: bv32): bv32 {
    ResetSet(odr, LowHalf(v), 0)
  }

  function AfterBsrr(odr: bv32, v: bv32): bv32 {
    ResetSet(odr, HighHalf(v), LowHalf(v))
  }

  lemma ResetSetBits(odr: bv32, reset: bv32, set_: bv32, p: bv32)
    requires p < 32
    ensures Bit(ResetSet(odr, reset, set_), p) == (Bit(set_, p) || (!Bit(reset, p) && Bit(odr, p)))
  {
    hide Bit;
    ClearMask(odr, reset, p);
    SetMask(odr & !reset, set_, p);
  }

  lemma PinBits(i: bv32, p: bv32)
    requires i < 16 && p < 32
    ensures Bit(LowHalf(1 << i), p) == (p == i) && !Bit(0, p)
  {}

  lemma PinNotHigh(i: bv32, p: bv32)
    requires i < 16 && p < 32
    ensures !Bit(HighHalf(1 << i), p)
  {}

  /** Writing a single pin's bit changes that pin's data bit alone. */
  lemma OnePin(odr: bv32, i: bv32, p: bv32)
    requires i < 16 && p < 32
    ensures Bit(AfterBrr(odr, 1 << i), p) == (p != i && Bit(odr, p))
    ensures Bit(AfterBsrr(odr, 1 << i), p) == (p == i || Bit(odr, p))
  {
    hide Bit, LowHalf, HighHalf, ResetSet;
    PinBits(i, p);
    PinNotHigh(i, p);
    ResetSetBits(odr, LowHalf(1 << i), 0, p);
    ResetSetBits(odr, HighHalf(1 << i), LowHalf(1 << i), p);
  }

  // ----- The packing loop -----

  /** `tmp` is `reg` with the nibbles of the named pins among the first `n` pins from `base` on. */
  ghost predicate Packed(reg: bv32, tmp: bv32, c: PinInit, base: bv32, n: bv32)
    requires base == 0 || base == 8
  {
    forall j: bv32 | j < 8 ::
      Slot4(tmp, j) == if j < n && Names(c, base + j) then NibbleFor(c) else Slot4(reg, j)
  }

  /** `after` is `before` with the data bits driven by those pins. */
  ghost predicate Driven(before: bv32, after: bv32, c: PinInit, base: bv32, n: bv32)
    requires base == 0 || base == 8
  {
    forall p: bv32 | p < 32 ::
      Bit(after, p) == if base <= p < base + n && Drives(c, p) then c.mode.IPU? else Bit(before, p)
  }

  function PackedPin(tmp: bv32, c: PinInit, base: bv32, n: bv32): bv32
    requires (base == 0 || base == 8) && n < 8
  {
    if Names(c, base + n) then WithSlot4(tmp, n, NibbleFor(c)) else tmp
  }

  lemma PackStep(reg: bv32, tmp: bv32, c: PinInit, base: bv32, n: bv32)
    requires base == 0 || base == 8
    requires n < 8 && InRange(c) && Packed(reg, tmp, c, base, n)
    ensures Packed(reg, PackedPin(tmp, c, base, n), c, base, n + 1)
  {
    hide Slot4, PackedPin, Names, NibbleFor;
    forall j: bv32 | j < 8
      ensures Slot4(PackedPin(tmp, c, base, n), j)
           == if j < n + 1 && Names(c, base + j) then NibbleFor(c) else Slot4(reg, j)
    {
      PackAt(tmp, c, base, n, j);
      Below(j, n);
    }
  }

  lemma PackAt(tmp: bv32, c: PinInit, base: bv32, n: bv32, j: bv32)
    requires (base == 0 || base == 8) && n < 8 && j < 8 && InRange(c)
    ensures Slot4(PackedPin(tmp, c, base, n), j)
         == if j == n && Names(c, base + n) then NibbleFor(c) else Slot4(tmp, j)
  {
    hide Slot4, WithSlot4, Names, NibbleFor;
    NibbleFits(c);
    Put4(tmp, n, NibbleFor(c), j);
  }

  lemma Below(j: bv32, n: bv32)
    requires n < 8
    ensures j < n + 1 <==> j < n || j == n
  {}

  lemma BelowFrom(p: bv32, n: bv32, base: bv32)
    requires (base == 0 || base == 8) && n < 8
    ensures base <= p < base + (n + 1) <==> base <= p < base + n || p == base + n
  {}

  function DrivenPin(odr: bv32, c: PinInit, base: bv32, n: bv32): bv32
    requires (base == 0 || base == 8) && n < 8
  {
    if !Drives(c, base + n) then odr
    else if c.mode.IPD? then AfterBrr(odr, 1 << (n + base)) else AfterBsrr(odr, 1 << (n + base))
  }

  lemma DriveAt(odr: bv32, c: PinInit, base: bv32, n: bv32, p: bv32)
    requires (base == 0 || base == 8) && n < 8 && p < 32
    ensures Bit(DrivenPin(odr, c, base, n), p)
         == if p == base + n && Drives(c, p) then c.mode.IPU? else Bit(odr, p)
  {
    hide Bit, Names, AfterBrr, AfterBsrr;
    OnePin(odr, n + base, p);
  }

  lemma DriveStep(before: bv32, odr: bv32, c: PinInit, base: bv32, n: bv32)
    requires base == 0 || base == 8
    requires n < 8 && Driven(before, odr, c, base, n)
    ensures Driven(before, DrivenPin(odr, c, base, n), c, base, n + 1)
  {
    hide Bit, Drives, DrivenPin;
    forall p: bv32 | p < 32
      ensures Bit(DrivenPin(odr, c, base, n), p)
           == if base <= p < base + (n + 1) && Drives(c, p) then c.mode.IPU? else Bit(before, p)
    {
      DriveAt(odr, c, base, n, p);
      BelowFrom(p, n, base);
    }
  }

  /** The nibble as the driver computes it from the code of the mode. */
  method CurrentMode(c: PinInit) returns (currentMode: bv32)
    ensures currentMode == NibbleFor(c)
  {
    hide LowCode, MarksOutput, Kind, IsOutput, WithSpeed;
    CodeIsKind(c.mode);
    currentMode := LowCode(c.mode);
    if MarksOutput(c.mode) {
      currentMode := WithSpeed(currentMode, c.speed);
    }
  }

  class Port {
    var crl: bv32
    var crh: bv32
    var odr: bv32

    function Regs(): Registers
      reads this
    {
      Registers(crl, crh, odr)
    }

    /** One of the two packing loops of GPIO_Init: `base` is 0 for CRL and 8 for CRH. */
    method PackPins(c: PinInit, base: bv32, reg: bv32) returns (tmpreg: bv32)
      requires InRange(c) && (base == 0 || base == 8)
      modifies this`odr
      ensures Packed(reg, tmpreg, c, base, 8) && Driven(old(odr), odr, c, base, 8)
    {
      hide Packed, Driven, WithSlot4, NibbleFor, AfterBrr, AfterBsrr, Bit, InRange;
      var currentMode := CurrentMode(c);
      tmpreg := reg;
      var pinpos: bv32 := 0;
      NothingPacked(reg, odr, c, base);
      while pinpos < 8
        invariant pinpos <= 8
        invariant Packed(reg, tmpreg, c, base, pinpos) && Driven(old(odr), odr, c, base, pinpos)
      {
        PackStep(reg, tmpreg, c, base, pinpos);
        DriveStep(old(odr), odr, c, base, pinpos);
        PinTest(c.pins, pinpos + base);
        var pos := 1 << (pinpos + base);
        if c.pins & pos == pos {
          tmpreg := WithSlot4(tmpreg, pinpos, currentMode);
          if c.mode == IPD {
            odr := AfterBrr(odr, pos);
          } else if c.mode == IPU {
            odr := AfterBsrr(odr, pos);
          }
        }
        pinpos := pinpos + 1;
      }
    }

    method Init(c: PinInit)
      requires InRange(c)
      modifies this
      ensures Configured(old(Regs()), c, Regs())
    {
      hide Packed, Driven, Configured, InRange;
      ghost var g := Regs();
      if c.pins & 0x00FF != 0 {
        var tmpreg := PackPins(c, 0, crl);
        crl := tmpreg;
      } else {
        NoneNamed(c, crl, odr, 0);
      }
      ghost var mid := odr;
      if c.pins > 0x00FF {
        var tmpreg := PackPins(c, 8, crh);
        crh := tmpreg;
      } else {
        NoneNamed(c, crh, odr, 8);
      }
      BothHalves(g, c, mid, Regs());
    }
  }

  lemma NothingPacked(reg: bv32, odr: bv32, c: PinInit, base: bv32)
    requires base == 0 || base == 8
    ensures Packed(reg, reg, c, base, 0) && Driven(odr, odr, c, base, 0)
  {
    hide Slot4, Bit, Names, Drives;
  }

  /** Skipping a loop is right: none of its pins is named. */
  lemma NoneNamed(c: PinInit, reg: bv32, odr: bv32, base: bv32)
    requires if base == 0 then c.pins & 0x00FF == 0 else base == 8 && c.pins <= 0x00FF
    ensures Packed(reg, reg, c, base, 8) && Driven(odr, odr, c, base, 8)
  {
    hide Slot4, Bit;
    forall j: bv32 | j < 8
      ensures Slot4(reg, j) == if j < 8 && Names(c, base + j) then NibbleFor(c) else Slot4(reg, j)
    {
      if base == 0 { NoLowPins(c.pins, j); } else { NoHighPins(c.pins, base + j); }
    }
    forall p: bv32 | p < 32 && base <= p < base + 8 ensures !Names(c, p) {
      if base == 0 { NoLowPins(c.pins, p); } else { NoHighPins(c.pins, p); }
    }
  }

  lemma BothHalves(g: Registers, c: PinInit, mid: bv32, g': Registers)
    requires InRange(c)
    requires Packed(g.crl, g'.crl, c, 0, 8) && Driven(g.odr, mid, c, 0, 8)
    requires Packed(g.crh, g'.crh, c, 8, 8) && Driven(mid, g'.odr, c, 8, 8)
    ensures Configured(g, c, g')
  {
    hide Slot4, Bit, NibbleFor, Names;
    forall p: bv32 | p < 16
      ensures Nibble(g', p) == if Names(c, p) then NibbleFor(c) else Nibble(g, p)
    {
      if p < 8 { PinOfLow(p); } else { PinOfHigh(p); }
    }
    forall p: bv32 | p < 32
      ensures Bit(g'.odr, p) == if Drives(c, p) then c.mode.IPU? else Bit(g.odr, p)
    {
      if p >= 16 { OffPort(c, p); }
    }
  }

  lemma OffPort(c: PinInit, p: bv32)
    requires InRange(c) && 16 <= p < 32
    ensures !Names(c, p)
  {
    OnlyPortPins(c.pins, p);
  }

  lemma PinOfLow(p: bv32)
    requires p < 8
    ensures 0 + p == p
  {}

  lemma PinOfHigh(p: bv32)
    requires 8 <= p < 16
    ensures p - 8 < 8 && 8 + (p - 8) == p
  {}
}
