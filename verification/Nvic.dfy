/** Nvic: interrupt enabling and priorities. */
module Nvic {
  import opened Bits
  import opened Runs
  import opened Priority

  const IRQS: nat := 240
  const WORDS: nat := 8

  function IrqMask(irq: nat): bv32 {
    1 << Pos(irq % 32)
  }

  /** Interrupt `irq` is enabled, as the enable words say. */
  predicate EnabledIn(words: seq<bv32>, irq: nat)
    requires |words| == WORDS && irq < IRQS
  {
    Bit(words[irq / 32], Pos(irq % 32))
  }

  /** One interrupt has been switched on or off. */
  ghost predicate Switched(words: seq<bv32>, irq: nat, on: bool, words': seq<bv32>) {
    && |words| == WORDS && |words'| == WORDS && irq < IRQS
    && forall k: nat | k < IRQS :: EnabledIn(words', k) == if k == irq then on else EnabledIn(words, k)
  }

  /** In the words themselves: bit irq % 32 of word irq / 32 becomes `on`, and no other bit changes. */
  ghost predicate WordBitSet(words: seq<bv32>, irq: nat, on: bool, words': seq<bv32>) {
    && |words| == WORDS && |words'| == WORDS && irq < IRQS
    && words' == words[irq / 32 := words'[irq / 32]]
    && BitNumberBecame(words[irq / 32], irq % 32, on, words'[irq / 32])
  }

  /** A write to ISER[w] sets the bits written as 1, one to ICER[w] clears them. */
  function AfterIser(w: bv32, v: bv32): bv32 {
    w | v
  }

  function AfterIcer(w: bv32, v: bv32): bv32 {
    w & !v
  }

  class NvicUnit {
    var aircr: bv32
    const enabled: array<bv32>
    const ip: array<bv8>
    const shp: array<bv8>

    ghost predicate Valid()
      reads this
    {
      enabled.Length == WORDS && ip.Length == IRQS && shp.Length == 12 && ip != shp
    }

    ghost function Registers(): State
      reads this, enabled, ip
    {
      State(enabled[..], ip[..])
    }

    /** PRIGROUP codes 0x300 to 0x700 are the ones the library accepts. */
    method PriorityGroupConfig(group: bv32)
      requires group in {0x700, 0x600, 0x500, 0x400, 0x300}
      modifies this`aircr
      ensures aircr == 0x05FA_0000 | group && GroupOf(aircr) == group >> 8 && GroupOf(aircr) >= 3
    {
      GroupWritten(group);
      aircr := 0x05FA_0000 | group;
    }

    method WriteIser(w: nat, v: bv32)
      requires w < enabled.Length
      modifies enabled
      ensures enabled[..] == old(enabled[..])[w := AfterIser(old(enabled[w]), v)]
    {
      enabled[w] := AfterIser(enabled[w], v);
    }

    method WriteIcer(w: nat, v: bv32)
      requires w < enabled.Length
      modifies enabled
      ensures enabled[..] == old(enabled[..])[w := AfterIcer(old(enabled[w]), v)]
    {
      enabled[w] := AfterIcer(enabled[w], v);
    }

    method EnableIrq(irq: nat)
      requires enabled.Length == WORDS && irq < IRQS
      modifies enabled
      ensures Switched(old(enabled[..]), irq, true, enabled[..])
      ensures WordBitSet(old(enabled[..]), irq, true, enabled[..])
    {
      hide Switched, WordBitSet, IrqMask, Assign, BitBecame, Pos, AfterIser, AfterIcer;
      WriteIser(irq / 32, IrqMask(irq));
      MaskAssigns(old(enabled[irq / 32]), irq);
      WordSwitched(old(enabled[..]), irq, true);
    }

    method DisableIrq(irq: nat)
      requires enabled.Length == WORDS && irq < IRQS
      modifies enabled
      ensures Switched(old(enabled[..]), irq, false, enabled[..])
      ensures WordBitSet(old(enabled[..]), irq, false, enabled[..])
    {
      hide Switched, WordBitSet, IrqMask, Assign, BitBecame, Pos, AfterIser, AfterIcer;
      WriteIcer(irq / 32, IrqMask(irq));
      MaskAssigns(old(enabled[irq / 32]), irq);
      WordSwitched(old(enabled[..]), irq, false);
    }

    /** NVIC_Init: an enabling call, which needs a priority group, stores the priority and enables; a
        disabling one only disables. */
    method Init(irq: nat, preempt: bv8, sub: bv8, enable: bool)
      requires Valid() && irq < IRQS && (enable ==> GroupOf(aircr) >= 3)
      modifies enabled, ip
      ensures Stepped(old(Registers()), Call(irq, preempt, sub, enable, GroupOf(aircr)), Registers())
      ensures WordBitSet(old(enabled[..]), irq, enable, enabled[..])
    {
      hide Switched, WordBitSet, InitByte, PriorityByte, Encode, GroupOf;
      if enable {
        EncodersAgree(aircr, preempt, sub);
        ip[irq] := InitByte(aircr, preempt, sub);
        EnableIrq(irq);
      } else {
        DisableIrq(irq);
      }
    }

    /** Core exceptions have negative numbers and live in SHP. */
    method SetPriority(irq: int, priority: bv32)
      requires Valid() && -12 <= irq < IRQS
      modifies ip, shp
      ensures irq >= 0 ==> ip[..] == old(ip[..])[irq := PriorityByte(priority)] && shp[..] == old(shp[..])
      ensures (if irq >= 0 then ip[irq] else shp[irq + 12]) as bv32 == (priority & 0xF) << 4
      ensures irq < 0 ==> shp[..] == old(shp[..])[irq + 12 := PriorityByte(priority)] && ip[..] == old(ip[..])
    {
      hide PriorityByte;
      PriorityByteBits(priority);
      if irq < 0 {
        shp[irq % 16 - 4] := PriorityByte(priority);
      } else {
        ip[irq] := PriorityByte(priority);
      }
    }
  }

  lemma GroupWritten(group: bv32)
    requires group in {0x700, 0x600, 0x500, 0x400, 0x300}
    ensures GroupOf(0x05FA_0000 | group) == group >> 8 && GroupOf(0x05FA_0000 | group) >= 3
  {}

  lemma MaskAssigns(w: bv32, irq: nat)
    ensures AfterIser(w, IrqMask(irq)) == Assign(w, Pos(irq % 32), true)
    ensures AfterIcer(w, IrqMask(irq)) == Assign(w, Pos(irq % 32), false)
  {
    hide Pos;
  }

  lemma WordSwitched(words: seq<bv32>, irq: nat, on: bool)
    requires |words| == WORDS && irq < IRQS
    ensures Switched(words, irq, on, words[irq / 32 := Assign(words[irq / 32], Pos(irq % 32), on)])
    ensures WordBitSet(words, irq, on, words[irq / 32 := Assign(words[irq / 32], Pos(irq % 32), on)])
  {
    hide Bit, Pos, Assign, BitNumberBecame;
    BecameByNumber(words[irq / 32], irq % 32, on, Assign(words[irq / 32], Pos(irq % 32), on));
    var w := words[irq / 32 := Assign(words[irq / 32], Pos(irq % 32), on)];
    forall k: nat | k < IRQS
      ensures EnabledIn(w, k) == if k == irq then on else EnabledIn(words, k)
    {
      if k / 32 == irq / 32 && k != irq { PosInjective(k % 32, irq % 32); }
    }
  }

  // ----- Over any sequence of calls -----

  /** A call of NVIC_Init under the priority group in force. */
  datatype Call = Call(irq: nat, preempt: bv8, sub: bv8, enable: bool, group: bv32)

  datatype State = State(enabled: seq<bv32>, ip: seq<bv8>)

  function StoredPriority(c: Call): bv8 {
    PriorityByte(Encode(c.group, c.preempt as bv32, c.sub as bv32))
  }

  /** What a call leaves behind, as NVIC_Init ensures. */
  ghost predicate Stepped(s: State, c: Call, s': State) {
    && Switched(s.enabled, c.irq, c.enable, s'.enabled)
    && |s.ip| == IRQS
    && s'.ip == if c.enable then s.ip[c.irq := StoredPriority(c)] else s.ip
  }

  ghost predicate IsRun(states: seq<State>, calls: seq<Call>) {
    && |states| == |calls| + 1 && |states[0].enabled| == WORDS && |states[0].ip| == IRQS
    && forall i :: 0 <= i < |calls| ==> Stepped(states[i], calls[i], states[i + 1])
  }

  lemma RunShaped(states: seq<State>, calls: seq<Call>)
    requires IsRun(states, calls)
    ensures forall i :: 0 <= i < |states| ==> |states[i].enabled| == WORDS && |states[i].ip| == IRQS
  {
    hide EnabledIn, StoredPriority;
    forall i | 0 <= i < |states| ensures |states[i].enabled| == WORDS && |states[i].ip| == IRQS {
      if i > 0 { assert Stepped(states[i - 1], calls[i - 1], states[i]); }
    }
  }

  /** An interrupt is enabled as the last call naming it said, and as at the start if none did. */
  lemma EnabledAfterRun(states: seq<State>, calls: seq<Call>, irq: nat)
    requires IsRun(states, calls) && irq < IRQS
    ensures |states[|calls|].enabled| == WORDS
    ensures EnabledIn(states[|calls|].enabled, irq)
         == FinalValue(calls, (c: Call) => c.irq == irq, (c: Call) => c.enable, EnabledIn(states[0].enabled, irq))
  {
    hide EnabledIn, StoredPriority;
    RunShaped(states, calls);
    var view := (s: State) => if |s.enabled| == WORDS then EnabledIn(s.enabled, irq) else false;
    forall i | 0 <= i < |calls|
      ensures view(states[i + 1]) == if calls[i].irq == irq then calls[i].enable else view(states[i])
    {
      assert Stepped(states[i], calls[i], states[i + 1]);
    }
    LastWriter(states, calls, view, (c: Call) => c.irq == irq, (c: Call) => c.enable);
  }

  /** The priority byte of an interrupt is that of the last call enabling it, under the group then in
      force; disabling calls leave it. */
  lemma PriorityAfterRun(states: seq<State>, calls: seq<Call>, irq: nat)
    requires IsRun(states, calls) && irq < IRQS
    ensures |states[|calls|].ip| == IRQS
    ensures states[|calls|].ip[irq]
         == FinalValue(calls, (c: Call) => c.irq == irq && c.enable, StoredPriority, states[0].ip[irq])
  {
    hide EnabledIn, StoredPriority;
    RunShaped(states, calls);
    var view := (s: State) => if |s.ip| == IRQS then s.ip[irq] else 0;
    forall i | 0 <= i < |calls|
      ensures view(states[i + 1])
           == if calls[i].irq == irq && calls[i].enable then StoredPriority(calls[i]) else view(states[i])
    {
      assert Stepped(states[i], calls[i], states[i + 1]);
    }
    LastWriter(states, calls, view, (c: Call) => c.irq == irq && c.enable, StoredPriority);
  }
}
