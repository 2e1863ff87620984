/** Exti: the mask and trigger registers of the external interrupt controller. */
module Exti {
  import opened Bits

  datatype Mode = Interrupt | Event
  datatype Trigger = Rising | Falling | RisingFalling

  datatype LineInit = LineInit(lines: bv32, mode: Mode, trigger: Trigger, enable: bool)

  datatype Registers = Registers(imr: bv32, emr: bv32, rtsr: bv32, ftsr: bv32)

  /** One line as the four registers show it. */
  datatype Line = Line(interrupt: bool, event: bool, rising: bool, falling: bool)

  function LineAt(g: Registers, l: bv32): Line
    requires l < 32
  {
    Line(Bit(g.imr, l), Bit(g.emr, l), Bit(g.rtsr, l), Bit(g.ftsr, l))
  }

  const OFF: Line := Line(false, false, false, false)

  predicate Names(c: LineInit, l: bv32)
    requires l < 32
  {
    Bit(c.lines, l)
  }

  /** What a call does to a line it names: enabling sets mode and edges, disabling takes the line out
      of the mask of the given mode and no other. */
  function Stepped(v: Line, c: LineInit): Line {
    if c.enable then
      Line(c.mode.Interrupt?, c.mode.Event?, !c.trigger.Falling?, !c.trigger.Rising?)
    else if c.mode.Interrupt? then v.(interrupt := false)
    else v.(event := false)
  }

  ghost predicate Configured(g: Registers, c: LineInit, g': Registers) {
    forall l: bv32 | l < 32 ::
      LineAt(g', l) == if Names(c, l) then Stepped(LineAt(g, l), c) else LineAt(g, l)
  }

  /** The byte offsets that the mode and trigger codes are added to the base address as. */
  function ModeOffset(m: Mode): nat {
    if m.Interrupt? then 0x00 else 0x04
  }

  function TriggerOffset(t: Trigger): nat {
    if t.Rising? then 0x08 else if t.Falling? then 0x0C else 0x10
  }

  class ExtiUnit {
    var imr: bv32
    var emr: bv32
    var rtsr: bv32
    var ftsr: bv32
    var pr: bv32

    function Regs(): Registers
      reads this
    {
      Registers(imr, emr, rtsr, ftsr)
    }

    /** The register at an offset from the base address. */
    function At(offset: nat): bv32
      requires offset in {0x00, 0x04, 0x08, 0x0C}
      reads this
    {
      if offset == 0x00 then imr else if offset == 0x04 then emr else if offset == 0x08 then rtsr else ftsr
    }

    method Put(offset: nat, v: bv32)
      requires offset in {0x00, 0x04, 0x08, 0x0C}
      modifies this
      ensures Regs() == Registers(if offset == 0x00 then v else old(imr), if offset == 0x04 then v else old(emr),
                                  if offset == 0x08 then v else old(rtsr), if offset == 0x0C then v else old(ftsr))
      ensures pr == old(pr)
    {
      if offset == 0x00 { imr := v; }
      else if offset == 0x04 { emr := v; }
      else if offset == 0x08 { rtsr := v; }
      else { ftsr := v; }
    }

    /** Pending bits clear on writing 1. */
    method DeInit()
      modifies this
      ensures forall l: bv32 | l < 32 :: LineAt(Regs(), l) == OFF
      ensures forall l: bv32 | l < 20 :: !Bit(pr, l)
    {
      hide Bit;
      imr, emr, rtsr, ftsr := 0, 0, 0, 0;
      forall l: bv32 | l < 32 ensures !Bit(0, l) { NoBits(l); }
      forall l: bv32 | l < 20 ensures !Bit(AfterPendingWrite(pr, 0x000F_FFFF), l) { PendingCleared(pr, l); }
      pr := AfterPendingWrite(pr, 0x000F_FFFF);
    }

    /** The mask part of an enabling call. */
    method SetMasks(c: LineInit)
      modifies this
      ensures rtsr == old(rtsr) && ftsr == old(ftsr) && pr == old(pr)
      ensures forall l: bv32 | l < 32 :: Bit(imr, l) == if Names(c, l) then c.mode.Interrupt? else old(Bit(imr, l))
      ensures forall l: bv32 | l < 32 :: Bit(emr, l) == if Names(c, l) then c.mode.Event? else old(Bit(emr, l))
    {
      hide Bit, Without, With;
      imr := Without(imr, c.lines);
      emr := Without(emr, c.lines);
      Put(ModeOffset(c.mode), With(At(ModeOffset(c.mode)), c.lines));
    }

    /** The trigger part. */
    method SetTriggers(c: LineInit)
      modifies this
      ensures imr == old(imr) && emr == old(emr) && pr == old(pr)
      ensures forall l: bv32 | l < 32 :: Bit(rtsr, l) == if Names(c, l) then !c.trigger.Falling? else old(Bit(rtsr, l))
      ensures forall l: bv32 | l < 32 :: Bit(ftsr, l) == if Names(c, l) then !c.trigger.Rising? else old(Bit(ftsr, l))
    {
      hide Bit, Without, With;
      rtsr := Without(rtsr, c.lines);
      ftsr := Without(ftsr, c.lines);
      if c.trigger == RisingFalling {
        rtsr := With(rtsr, c.lines);
        ftsr := With(ftsr, c.lines);
      } else {
        Put(TriggerOffset(c.trigger), With(At(TriggerOffset(c.trigger)), c.lines));
      }
    }

    method Init(c: LineInit)
      modifies this
      ensures Configured(old(Regs()), c, Regs())
      ensures pr == old(pr)
    {
      hide Bit, Without, With, Names;
      if c.enable {
        SetMasks(c);
        SetTriggers(c);
      } else {
        ghost var w := At(ModeOffset(c.mode));
        WithoutNamed(c, w);
        Put(ModeOffset(c.mode), Without(At(ModeOffset(c.mode)), c.lines));
      }
    }
  }

  lemma WithoutNamed(c: LineInit, w: bv32)
    ensures forall l: bv32 | l < 32 :: Bit(Without(w, c.lines), l) == (!Names(c, l) && Bit(w, l))
  {
    hide Bit, Without;
  }

  function AfterPendingWrite(pr: bv32, v: bv32): bv32 {
    pr & !v
  }

  /** `w &= ~mask` and `w |= mask`, line by line. */
  function Without(w: bv32, mask: bv32): (r: bv32)
    ensures forall l: bv32 | l < 32 :: Bit(r, l) == (!Bit(mask, l) && Bit(w, l))
  {
    AllCleared(w, mask);
    w & !mask
  }

  function With(w: bv32, mask: bv32): (r: bv32)
    ensures forall l: bv32 | l < 32 :: Bit(r, l) == (Bit(mask, l) || Bit(w, l))
  {
    AllSet(w, mask);
    w | mask
  }

  lemma AllCleared(w: bv32, mask: bv32)
    ensures forall l: bv32 | l < 32 :: Bit(w & !mask, l) == (!Bit(mask, l) && Bit(w, l))
  {
    forall l: bv32 | l < 32 ensures Bit(w & !mask, l) == (!Bit(mask, l) && Bit(w, l)) { ClearMask(w, mask, l); }
  }

  lemma AllSet(w: bv32, mask: bv32)
    ensures forall l: bv32 | l < 32 :: Bit(w | mask, l) == (Bit(mask, l) || Bit(w, l))
  {
    forall l: bv32 | l < 32 ensures Bit(w | mask, l) == (Bit(mask, l) || Bit(w, l)) { SetMask(w, mask, l); }
  }

  lemma NoBits(l: bv32)
    requires l < 32
    ensures !Bit(0, l)
  {}

  lemma PendingCleared(pr: bv32, l: bv32)
    requires l < 20
    ensures !Bit(AfterPendingWrite(pr, 0x000F_FFFF), l)
  {}

  // ----- Over any sequence of calls -----

  ghost predicate IsRun(states: seq<Registers>, calls: seq<LineInit>) {
    && |states| == |calls| + 1
    && forall i :: 0 <= i < |calls| ==> Configured(states[i], calls[i], states[i + 1])
  }

  /** A line is in at most one mask, and in one only with an edge to trigger it. */
  predicate Sound(v: Line) {
    !(v.interrupt && v.event) && (v.interrupt || v.event ==> v.rising || v.falling)
  }

  /** From EXTI_DeInit on, every line is sound in every state. */
  lemma {:induction false} AlwaysSound(states: seq<Registers>, calls: seq<LineInit>, l: bv32)
    requires IsRun(states, calls) && l < 32 && LineAt(states[0], l) == OFF
    ensures forall i :: 0 <= i < |states| ==> Sound(LineAt(states[i], l))
  {
    hide Bit, Names, LineAt;
    if calls != [] {
      var n := |calls| - 1;
      AlwaysSound(states[..n + 1], calls[..n], l);
      assert Sound(LineAt(states[..n + 1][n], l));
      assert Configured(states[n], calls[n], states[n + 1]);
    }
  }

  /** Call `i` takes line `l` into the mask of mode `m`, and no later call takes it out or into the
      other mask. */
  ghost predicate EnabledBy(calls: seq<LineInit>, l: bv32, m: Mode, i: int)
    requires l < 32
  {
    && 0 <= i < |calls| && Names(calls[i], l) && calls[i].enable && calls[i].mode == m
    && forall j :: i < j < |calls| && Names(calls[j], l) ==> !calls[j].enable && calls[j].mode != m
  }

  function Masked(v: Line, m: Mode): bool {
    if m.Interrupt? then v.interrupt else v.event
  }

  /** A line is in the mask of a mode exactly when some call put it there and none since took it out,
      and its edges are then those of that call. */
  lemma {:induction false} MaskedIffEnabled(states: seq<Registers>, calls: seq<LineInit>, l: bv32, m: Mode)
    requires IsRun(states, calls) && l < 32 && LineAt(states[0], l) == OFF
    ensures Masked(LineAt(states[|calls|], l), m) <==> exists i :: EnabledBy(calls, l, m, i)
    ensures forall i :: EnabledBy(calls, l, m, i) ==>
      LineAt(states[|calls|], l) == Stepped(OFF, calls[i])
  {
    hide Bit, Names, LineAt;
    if calls != [] {
      var n := |calls| - 1;
      var c := calls[n];
      MaskedIffEnabled(states[..n + 1], calls[..n], l, m);
      assert Configured(states[n], c, states[n + 1]);
      forall i | 0 <= i < n
        ensures EnabledBy(calls, l, m, i) <==>
          EnabledBy(calls[..n], l, m, i) && (Names(c, l) ==> !c.enable && c.mode != m)
      {
        EnabledStep(calls, l, m, i);
      }
      if i :| EnabledBy(calls[..n], l, m, i) {
        assert EnabledBy(calls, l, m, i) <==> (Names(c, l) ==> !c.enable && c.mode != m);
      }
      assert EnabledBy(calls, l, m, n) <==> Names(c, l) && c.enable && c.mode == m;
      AlwaysSound(states, calls, l);
    }
  }

  lemma EnabledStep(calls: seq<LineInit>, l: bv32, m: Mode, i: int)
    requires l < 32 && 0 <= i < |calls| - 1
    ensures var n := |calls| - 1;
      EnabledBy(calls, l, m, i) <==>
      EnabledBy(calls[..n], l, m, i) && (Names(calls[n], l) ==> !calls[n].enable && calls[n].mode != m)
  {
    hide Names;
    var p := calls[..|calls| - 1];
    assert forall j :: 0 <= j < |p| ==> p[j] == calls[j];
  }

  /** A disabling call leaves a line it names in no mask exactly when the line was not in the mask of
      the other mode. */
  lemma DisableIffSameMode(g: Registers, c: LineInit, g': Registers, l: bv32)
    requires Configured(g, c, g') && l < 32 && Names(c, l) && !c.enable
    ensures !LineAt(g', l).interrupt && !LineAt(g', l).event
       <==> !Masked(LineAt(g, l), if c.mode.Interrupt? then Event else Interrupt)
  {
    hide Bit, Names;
    assert LineAt(g', l) == Stepped(LineAt(g, l), c);
  }
}
