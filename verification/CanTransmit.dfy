/** CanTransmit: the transmit half of the CAN register block and its driver functions.

Between any two register accesses of the driver the controller may take any number of steps
(`ControllerRuns`). The assumptions about the hardware are the bodies of `ControllerStep`,
`WriteTsr` and `WriteRequest`:
 - a write to TIR with TXRQ set clears TME, RQCP and TXOK of that mailbox;
 - finishing a request sets TME and RQCP, sets TXOK on success, and clears TXRQ and ABRQ;
 - writing 1 to RQCP clears RQCP and TXOK; writing 1 to ABRQ sets it while a request is pending;
 - the remaining TSR bits, and the time stamp of a busy mailbox, may change at any time. */
module CanTransmit {
  import opened CanFrame
  import opened CanTxHistory

  const NO_MAILBOX: nat := 4

  // ----- Status bits of mailbox m -----

  function Rqcp(m: nat): bv32
    requires m < 3
  {
    if m == 0 then 0x0000_0001 else if m == 1 then 0x0000_0100 else 0x0001_0000
  }

  function Txok(m: nat): bv32
    requires m < 3
  {
    if m == 0 then 0x0000_0002 else if m == 1 then 0x0000_0200 else 0x0002_0000
  }

  function Abrq(m: nat): bv32
    requires m < 3
  {
    if m == 0 then 0x0000_0080 else if m == 1 then 0x0000_8000 else 0x0080_0000
  }

  function Tme(m: nat): bv32
    requires m < 3
  {
    if m == 0 then 0x0400_0000 else if m == 1 then 0x0800_0000 else 0x1000_0000
  }

  /** The bits above, for one mailbox and for all three. */
  function Own(m: nat): bv32
    requires m < 3
  {
    if m == 0 then 0x0400_0083 else if m == 1 then 0x0800_8300 else 0x1083_0000
  }

  const TRACKED: bv32 := 0x1C83_8383

  datatype Flags = Flags(empty: bool, done: bool, ok: bool, aborting: bool)

  function FlagsOf(tsr: bv32, m: nat): Flags
    requires m < 3
  {
    Flags(tsr & Tme(m) != 0, tsr & Rqcp(m) != 0, tsr & Txok(m) != 0, tsr & Abrq(m) != 0)
  }

  // ----- How the hardware changes the status register -----

  function Changed(tsr: bv32, clear: bv32, set_: bv32): bv32 {
    (tsr & !clear) | set_
  }

  function Requested(tsr: bv32, m: nat): bv32
    requires m < 3
  {
    Changed(tsr, Tme(m) | Rqcp(m) | Txok(m), 0)
  }

  function Completed(tsr: bv32, m: nat, ok: bool): bv32
    requires m < 3
  {
    Changed(tsr, Txok(m) | Abrq(m), Tme(m) | Rqcp(m) | (if ok then Txok(m) else 0))
  }

  function Acknowledged(tsr: bv32, m: nat): bv32
    requires m < 3
  {
    Changed(tsr, Rqcp(m) | Txok(m), 0)
  }

  function AbortRequested(tsr: bv32, m: nat): bv32
    requires m < 3
  {
    Changed(tsr, 0, Abrq(m))
  }

  function Drifted(tsr: bv32, noise: bv32): bv32 {
    Changed(tsr, !TRACKED, noise & !TRACKED)
  }

  /** The effect on mailbox `m` of writing `v` to the status register. */
  function Written(tsr: bv32, v: bv32, m: nat): bv32
    requires m < 3
  {
    var t := if FlagsOf(v, m).done then Acknowledged(tsr, m) else tsr;
    if FlagsOf(v, m).aborting && !FlagsOf(t, m).empty then AbortRequested(t, m) else t
  }

  function WrittenFlags(f: Flags, w: Flags): Flags {
    Flags(f.empty, f.done && !w.done, f.ok && !w.done, f.aborting || (w.aborting && !f.empty))
  }

  // ----- A change of one mailbox's bits shows in its flags alone -----

  lemma KeptBit(tsr: bv32, clear: bv32, set_: bv32, own: bv32, bit: bv32)
    requires (clear | set_) & own == 0 && bit & own == bit
    ensures Changed(tsr, clear, set_) & bit == tsr & bit
  {}

  lemma Elsewhere(tsr: bv32, clear: bv32, set_: bv32, k: nat)
    requires k < 3 && (clear | set_) & Own(k) == 0
    ensures FlagsOf(Changed(tsr, clear, set_), k) == FlagsOf(tsr, k)
  {
    KeptBit(tsr, clear, set_, Own(k), Tme(k));
    KeptBit(tsr, clear, set_, Own(k), Rqcp(k));
    KeptBit(tsr, clear, set_, Own(k), Txok(k));
    KeptBit(tsr, clear, set_, Own(k), Abrq(k));
  }

  lemma OwnBits(clear: bv32, set_: bv32, m: nat, k: nat)
    requires m < 3 && k < 3 && m != k
    requires clear & Own(m) == clear && set_ & Own(m) == set_
    ensures (clear | set_) & Own(k) == 0
  {}

  lemma RequestedOwn(tsr: bv32, m: nat)
    requires m < 3
    ensures FlagsOf(Requested(tsr, m), m) == Flags(false, false, false, FlagsOf(tsr, m).aborting)
  {}

  lemma RequestedFlags(tsr: bv32, m: nat, k: nat)
    requires m < 3 && k < 3
    ensures FlagsOf(Requested(tsr, m), k)
         == if k == m then Flags(false, false, false, FlagsOf(tsr, m).aborting) else FlagsOf(tsr, k)
  {
    hide FlagsOf, Changed;
    if k == m {
      RequestedOwn(tsr, m);
    } else {
      OwnBits(Tme(m) | Rqcp(m) | Txok(m), 0, m, k);
      Elsewhere(tsr, Tme(m) | Rqcp(m) | Txok(m), 0, k);
    }
  }

  lemma CompletedOwn(tsr: bv32, m: nat, ok: bool)
    requires m < 3
    ensures FlagsOf(Completed(tsr, m, ok), m) == Flags(true, true, ok, false)
  {}

  lemma CompletedFlags(tsr: bv32, m: nat, ok: bool, k: nat)
    requires m < 3 && k < 3
    ensures FlagsOf(Completed(tsr, m, ok), k)
         == if k == m then Flags(true, true, ok, false) else FlagsOf(tsr, k)
  {
    hide FlagsOf, Changed;
    if k == m {
      CompletedOwn(tsr, m, ok);
    } else {
      OwnBits(Txok(m) | Abrq(m), Tme(m) | Rqcp(m) | (if ok then Txok(m) else 0), m, k);
      Elsewhere(tsr, Txok(m) | Abrq(m), Tme(m) | Rqcp(m) | (if ok then Txok(m) else 0), k);
    }
  }

  lemma AcknowledgedOwn(tsr: bv32, m: nat)
    requires m < 3
    ensures FlagsOf(Acknowledged(tsr, m), m) == FlagsOf(tsr, m).(done := false, ok := false)
  {
    if m == 0 {} else if m == 1 {} else {}
  }

  lemma AcknowledgedFlags(tsr: bv32, m: nat, k: nat)
    requires m < 3 && k < 3
    ensures FlagsOf(Acknowledged(tsr, m), k)
         == if k == m then FlagsOf(tsr, m).(done := false, ok := false) else FlagsOf(tsr, k)
  {
    hide FlagsOf, Changed;
    if k == m {
      AcknowledgedOwn(tsr, m);
    } else {
      OwnBits(Rqcp(m) | Txok(m), 0, m, k);
      Elsewhere(tsr, Rqcp(m) | Txok(m), 0, k);
    }
  }

  lemma AbortRequestedOwn(tsr: bv32, m: nat)
    requires m < 3
    ensures FlagsOf(AbortRequested(tsr, m), m) == FlagsOf(tsr, m).(aborting := true)
  {
    if m == 0 {} else if m == 1 {} else {}
  }

  lemma AbortRequestedFlags(tsr: bv32, m: nat, k: nat)
    requires m < 3 && k < 3
    ensures FlagsOf(AbortRequested(tsr, m), k)
         == if k == m then FlagsOf(tsr, m).(aborting := true) else FlagsOf(tsr, k)
  {
    hide FlagsOf, Changed;
    if k == m {
      AbortRequestedOwn(tsr, m);
    } else {
      OwnBits(0, Abrq(m), m, k);
      Elsewhere(tsr, 0, Abrq(m), k);
    }
  }

  lemma WrittenFlagsOf(tsr: bv32, v: bv32, m: nat, k: nat)
    requires m < 3 && k < 3
    ensures FlagsOf(Written(tsr, v, m), k)
         == if k == m then WrittenFlags(FlagsOf(tsr, m), FlagsOf(v, m)) else FlagsOf(tsr, k)
  {
    hide FlagsOf, Acknowledged, AbortRequested;
    var t := if FlagsOf(v, m).done then Acknowledged(tsr, m) else tsr;
    AcknowledgedFlags(tsr, m, m);
    AcknowledgedFlags(tsr, m, k);
    AbortRequestedFlags(t, m, m);
    AbortRequestedFlags(t, m, k);
  }

  /** Writing `v` to the status register. */
  function WrittenAll(tsr: bv32, v: bv32): bv32 {
    Written(Written(Written(tsr, v, 0), v, 1), v, 2)
  }

  lemma WrittenAllFlags(tsr: bv32, v: bv32, k: nat)
    requires k < 3
    ensures FlagsOf(WrittenAll(tsr, v), k) == WrittenFlags(FlagsOf(tsr, k), FlagsOf(v, k))
  {
    hide FlagsOf, Written;
    WrittenFlagsOf(tsr, v, 0, k);
    WrittenFlagsOf(Written(tsr, v, 0), v, 1, k);
    WrittenFlagsOf(Written(Written(tsr, v, 0), v, 1), v, 2, k);
  }

  function DoneBits(v: bv32): set<nat> {
    set k: nat | k < 3 && FlagsOf(v, k).done
  }

  function AbortBits(v: bv32): set<nat> {
    set k: nat | k < 3 && FlagsOf(v, k).aborting
  }

  lemma OrIsAbortRequested(tsr: bv32, m: nat)
    requires m < 3
    ensures tsr | Abrq(m) == AbortRequested(tsr, m)
  {}

  lemma AbortRequestedBits(v: bv32, m: nat)
    requires m < 3
    ensures DoneBits(v | Abrq(m)) == DoneBits(v) && AbortBits(v | Abrq(m)) == AbortBits(v) + {m}
  {
    hide FlagsOf, AbortRequested, Abrq;
    OrIsAbortRequested(v, m);
    forall k: nat | k < 3
      ensures FlagsOf(AbortRequested(v, m), k)
           == if k == m then FlagsOf(v, m).(aborting := true) else FlagsOf(v, k)
    {
      AbortRequestedFlags(v, m, k);
    }
  }

  lemma DriftedFlags(tsr: bv32, noise: bv32, k: nat)
    requires k < 3
    ensures FlagsOf(Drifted(tsr, noise), k) == FlagsOf(tsr, k)
  {
    Elsewhere(tsr, !TRACKED, noise & !TRACKED, k);
  }

  // ----- The registers -----

  /** The mailbox number's slot as its flags and its registers show it. */
  function SlotOf(f: Flags, b: TxMailBox): Slot {
    if f.empty then Empty(f.done, f.ok) else Busy(FrameOfTx(b), f.aborting)
  }

  predicate Requesting(b: TxMailBox) {
    b.tir & TXRQ != 0
  }

  /** What the controller keeps true of one mailbox. */
  predicate MailBoxOk(f: Flags, b: TxMailBox) {
    if f.empty then !Requesting(b) && !f.aborting && (f.ok ==> f.done)
    else Requesting(b) && !f.done && !f.ok
  }

  datatype Register = TIR | TDTR | TDLR | TDHR

  function Get(b: TxMailBox, r: Register): bv32 {
    match r
    case TIR => b.tir
    case TDTR => b.tdtr
    case TDLR => b.tdlr
    case TDHR => b.tdhr
  }

  function Put(b: TxMailBox, r: Register, v: bv32): TxMailBox {
    match r
    case TIR => b.(tir := v)
    case TDTR => b.(tdtr := v)
    case TDLR => b.(tdlr := v)
    case TDHR => b.(tdhr := v)
  }

  lemma StatusWriteShows(tsr: bv32, v: bv32, b: TxMailBox, m: nat)
    requires m < 3 && MailBoxOk(FlagsOf(tsr, m), b)
    ensures MailBoxOk(FlagsOf(WrittenAll(tsr, v), m), b)
    ensures SlotOf(FlagsOf(WrittenAll(tsr, v), m), b)
         == AfterStatusWrite(SlotOf(FlagsOf(tsr, m), b), m in DoneBits(v), m in AbortBits(v))
  {
    hide FlagsOf, WrittenAll, FrameOfTx, Requesting;
    WrittenAllFlags(tsr, v, m);
  }

  /** How CAN_TransmitStatus maps the three status bits of a mailbox to its result. */
  // What the bits of the status register are, mailbox by mailbox.

  /** TME: bits 26, 27 and 28. */
  predicate EmptyBit(tsr: bv32, m: nat)
    requires m < 3
  {
    tsr & (if m == 0 then 0x0400_0000 else if m == 1 then 0x0800_0000 else 0x1000_0000) != 0
  }

  /** RQCP: bits 0, 8 and 16. */
  predicate DoneBit(tsr: bv32, m: nat)
    requires m < 3
  {
    tsr & (if m == 0 then 0x1 else if m == 1 then 0x100 else 0x1_0000) != 0
  }

  /** TXOK: bits 1, 9 and 17. */
  predicate OkBit(tsr: bv32, m: nat)
    requires m < 3
  {
    tsr & (if m == 0 then 0x2 else if m == 1 then 0x200 else 0x2_0000) != 0
  }

  /** ABRQ: bits 7, 15 and 23. */
  predicate AbortBit(tsr: bv32, m: nat)
    requires m < 3
  {
    tsr & (if m == 0 then 0x80 else if m == 1 then 0x8000 else 0x80_0000) != 0
  }

  lemma FlagPositions(tsr: bv32, m: nat)
    requires m < 3
    ensures FlagsOf(tsr, m) == Flags(EmptyBit(tsr, m), DoneBit(tsr, m), OkBit(tsr, m), AbortBit(tsr, m))
  {
    if m == 0 {} else if m == 1 {} else {}
  }

  /** The abort bit of mailbox `m` or-ed in. */
  predicate AbortSet(seen: bv32, m: nat, written: bv32)
    requires m < 3
  {
    written == seen | (if m == 0 then 0x80 else if m == 1 then 0x8000 else 0x80_0000)
  }

  lemma AbortOred(v: bv32, m: nat)
    requires m < 3
    ensures AbortSet(v, m, v | Abrq(m))
  {}

  /** The event that writing `v` to the status register is. */
  function EventOf(v: bv32): Event {
    StatusWrite(set k: nat | k < 3 && DoneBit(v, k), set k: nat | k < 3 && AbortBit(v, k))
  }

  lemma EventOfBits(v: bv32)
    ensures StatusWrite(DoneBits(v), AbortBits(v)) == EventOf(v)
  {
    hide FlagsOf, DoneBit, OkBit, EmptyBit, AbortBit;
    forall k: nat | k < 3
      ensures FlagsOf(v, k) == Flags(EmptyBit(v, k), DoneBit(v, k), OkBit(v, k), AbortBit(v, k))
    {
      FlagPositions(v, k);
    }
  }

  /** What the status register shows a mailbox's transmission to be. */
  function StatusShown(tsr: bv32, m: nat): bv8
    requires m < 3
  {
    if !EmptyBit(tsr, m) && !DoneBit(tsr, m) && !OkBit(tsr, m) then 2
    else if EmptyBit(tsr, m) && DoneBit(tsr, m) && OkBit(tsr, m) then 1
    else 0
  }

  lemma StatusOfBits(tsr: bv32, m: nat)
    requires m < 3
    ensures StatusCode(tsr & (Rqcp(m) | Txok(m) | Tme(m))) == StatusShown(tsr, m)
  {
    hide FlagsOf, StatusCode, Rqcp, Txok, Tme, EmptyBit, DoneBit, OkBit, AbortBit;
    FlagPositions(tsr, m);
    StatusBits(tsr, m);
    MaskedTwice(tsr, Rqcp(m) | Txok(m) | Tme(m));
    StatusCodeCases(tsr & (Rqcp(m) | Txok(m) | Tme(m)), m);
  }

  lemma MaskedTwice(v: bv32, m: bv32)
    ensures (v & m) & m == v & m
  {}

  function StatusCode(state: bv32): bv8 {
    if state == 0 then PENDING
    else if state == Rqcp(0) | Tme(0) || state == Rqcp(1) | Tme(1) || state == Rqcp(2) | Tme(2) then FAILED
    else if state == Rqcp(0) | Txok(0) | Tme(0) || state == Rqcp(1) | Txok(1) | Tme(1)
         || state == Rqcp(2) | Txok(2) | Tme(2) then OK
    else FAILED
  }

  predicate ShowsEmpty(tsr: bv32, m: nat)
    requires m < 3
  {
    tsr & Tme(m) == Tme(m)
  }

  lemma ShowsEmptyFlag(tsr: bv32, m: nat)
    requires m < 3
    ensures ShowsEmpty(tsr, m) == FlagsOf(tsr, m).empty
  {
    if m == 0 {} else if m == 1 {} else {}
  }

  lemma StatusCodeOfNothing()
    ensures StatusCode(FAILED as bv32) == PENDING
  {}

  lemma StatusBits(tsr: bv32, m: nat)
    requires m < 3
    ensures var state := tsr & (Rqcp(m) | Txok(m) | Tme(m)); var f := FlagsOf(tsr, m);
      && (state == 0 <==> !f.empty && !f.done && !f.ok)
      && (state == Rqcp(m) | Txok(m) | Tme(m) <==> f.empty && f.done && f.ok)
  {}

  lemma StatusCodeCases(state: bv32, m: nat)
    requires m < 3 && state & (Rqcp(m) | Txok(m) | Tme(m)) == state
    ensures StatusCode(state) == if state == 0 then PENDING
                                 else if state == Rqcp(m) | Txok(m) | Tme(m) then OK else FAILED
  {}

  lemma StatusCodeOfSlot(tsr: bv32, b: TxMailBox, m: nat)
    requires m < 3 && MailBoxOk(FlagsOf(tsr, m), b)
    ensures StatusCode(tsr & (Rqcp(m) | Txok(m) | Tme(m))) == StatusOf(SlotOf(FlagsOf(tsr, m), b))
  {
    hide FlagsOf, StatusCode, Rqcp, Txok, Tme, FrameOfTx, Requesting;
    StatusBits(tsr, m);
    StatusCodeCases(tsr & (Rqcp(m) | Txok(m) | Tme(m)), m);
  }

  class TxUnit {
    var tsr: bv32
    const sTxMailBox: array<TxMailBox>
    ghost var history: seq<Event>

    ghost function SlotAt(m: nat): Slot
      requires sTxMailBox.Length == 3 && m < 3
      reads this, sTxMailBox
    {
      SlotOf(FlagsOf(tsr, m), sTxMailBox[m])
    }

    /** The registers show what the history leads to. */
    ghost predicate Valid()
      reads this, sTxMailBox
      ensures Valid() ==> sTxMailBox.Length == 3
    {
      && sTxMailBox.Length == 3
      && (forall m: nat | m < 3 :: MailBoxOk(FlagsOf(tsr, m), sTxMailBox[m]))
      && Legal(history)
      && (forall m: nat | m < 3 :: Replay(history)[m] == SlotAt(m))
    }

    /** The reset state: all mailboxes empty, nothing requested. */
    constructor ()
      ensures Valid() && history == [] && fresh(sTxMailBox)
    {
      tsr := 0x1C00_0000;
      sTxMailBox := new TxMailBox[3](_ => TxMailBox(0, 0, 0, 0));
      history := [];
      new;
      hide FrameOfTx;
      assert FlagsOf(tsr, 0) == FlagsOf(tsr, 1) == FlagsOf(tsr, 2) == Flags(true, false, false, false);
    }

    /** A busy mailbox register holds, bit for bit, the frame it accepted last. */
    lemma HeldAsAccepted(m: nat) returns (i: nat)
      requires Valid() && m < 3 && !FlagsOf(tsr, m).empty
      ensures LastTouch(history, m, i) && history[i] == Accept(m, FrameOfTx(sTxMailBox[m]))
    {
      hide FlagsOf, FrameOfTx, Requesting;
      SlotExplained(history, m);
      i :| Explains(history, m, Replay(history)[m], i);
    }

    /** No mailbox but possibly `m` has been written. */
    twostate predicate WrittenOnly(m: nat)
      requires sTxMailBox.Length == 3
      reads this, sTxMailBox
    {
      forall k: nat | k < 3 && k != m :: Contents(sTxMailBox[k]) == old(Contents(sTxMailBox[k]))
    }

    /** The controller alone has acted: it finished requests, and left empty mailboxes alone. */
    twostate predicate ControllerActed()
      requires sTxMailBox.Length == 3
      reads this, sTxMailBox
    {
      && ControllerOnly(old(history), history)
      && WrittenOnly(NO_MAILBOX)
      && forall m: nat | m < 3 && old(SlotAt(m)).Empty? ::
           SlotAt(m) == old(SlotAt(m)) && sTxMailBox[m] == old(sTxMailBox[m])
    }

    /** Any one step of the controller. */
    method ControllerStep()
      requires Valid()
      modifies this, sTxMailBox
      ensures Valid() && ControllerActed()
    {
      hide FlagsOf, Completed, Drifted, FrameOfTx, Requesting, StampTime, Contents;
      var m: nat, ok: bool, finish: bool, noise: bv32 := *, *, *, *;
      if m < 3 && !FlagsOf(tsr, m).empty {
        var b := sTxMailBox[m];
        if finish {
          forall k: nat | k < 3 { CompletedFlags(tsr, m, ok, k); }
          Extend(history, Finish(m, FrameOfTx(b), ok));
          history := history + [Finish(m, FrameOfTx(b), ok)];
          tsr := Completed(tsr, m, ok);
          sTxMailBox[m] := b.(tir := WithoutRequest(b.tir));
          RequestDropped(b);
          DropKeepsContents(b);
        } else {
          StampKeeps(b, noise);
          StampKeepsContents(b, noise);
          sTxMailBox[m] := StampTime(b, noise);
        }
      } else {
        forall k: nat | k < 3 { DriftedFlags(tsr, noise, k); }
        tsr := Drifted(tsr, noise);
      }
    }

    /** Any number of steps of the controller. */
    method ControllerRuns()
      requires Valid()
      modifies this, sTxMailBox
      ensures Valid() && ControllerActed()
    {
      hide FlagsOf, FrameOfTx, MailBoxOk, Contents;
      var n: nat := *;
      while n > 0
        invariant Valid() && ControllerActed()
      {
        ControllerStep();
        n := n - 1;
      }
    }

    // ----- Register accesses; the controller may run before each of them -----

    method ReadTsr() returns (v: bv32)
      requires Valid()
      modifies this, sTxMailBox
      ensures Valid() && ControllerActed()
      ensures v == tsr
    {
      ControllerRuns();
      v := tsr;
    }

    method WriteTsr(v: bv32)
      requires Valid()
      modifies this, sTxMailBox
      ensures Valid() && WrittenOnly(NO_MAILBOX)
      ensures |history| > 0 && ControllerOnly(old(history), history[..|history| - 1])
      ensures history[|history| - 1] == StatusWrite(DoneBits(v), AbortBits(v))
    {
      hide FlagsOf, WrittenAll, MailBoxOk, SlotOf, AfterStatusWrite, DoneBits, AbortBits, Contents;
      ControllerRuns();
      StatusWriteShows(tsr, v, sTxMailBox[0], 0);
      StatusWriteShows(tsr, v, sTxMailBox[1], 1);
      StatusWriteShows(tsr, v, sTxMailBox[2], 2);
      ghost var e := StatusWrite(DoneBits(v), AbortBits(v));
      Extend(history, e);
      assert (history + [e])[..|history|] == history;
      history := history + [e];
      tsr := WrittenAll(tsr, v);
    }

    method ReadMailBox(m: nat, r: Register) returns (v: bv32)
      requires Valid() && m < 3 && SlotAt(m).Empty?
      modifies this, sTxMailBox
      ensures Valid() && ControllerOnly(old(history), history) && WrittenOnly(NO_MAILBOX)
      ensures sTxMailBox[m] == old(sTxMailBox[m]) && v == Get(sTxMailBox[m], r)
      ensures SlotAt(m) == old(SlotAt(m))
    {
      ControllerRuns();
      v := Get(sTxMailBox[m], r);
    }

    /** The mailbox must be empty: an occupied mailbox is never written. */
    method WriteMailBox(m: nat, r: Register, v: bv32)
      requires Valid() && m < 3 && SlotAt(m).Empty?
      requires r.TIR? ==> v & TXRQ == 0
      modifies this, sTxMailBox
      ensures Valid() && ControllerOnly(old(history), history) && WrittenOnly(m)
      ensures sTxMailBox[m] == Put(old(sTxMailBox[m]), r, v)
      ensures SlotAt(m) == old(SlotAt(m))
    {
      hide FlagsOf, FrameOfTx, Contents;
      ControllerRuns();
      sTxMailBox[m] := Put(sTxMailBox[m], r, v);
    }

    method WriteRequest(m: nat, v: bv32)
      requires Valid() && m < 3 && SlotAt(m).Empty?
      requires v & TXRQ != 0
      modifies this, sTxMailBox
      ensures Valid() && WrittenOnly(m)
      ensures |history| > 0 && ControllerOnly(old(history), history[..|history| - 1])
      ensures history[|history| - 1] == Accept(m, FrameOfTx(old(sTxMailBox[m]).(tir := v)))
    {
      hide FlagsOf, FrameOfTx, Requested, Contents;
      ControllerRuns();
      forall k: nat | k < 3 { RequestedFlags(tsr, m, k); }
      sTxMailBox[m] := sTxMailBox[m].(tir := v);
      ghost var e := Accept(m, FrameOfTx(sTxMailBox[m]));
      Extend(history, e);
      assert (history + [e])[..|history|] == history;
      history := history + [e];
      tsr := Requested(tsr, m);
    }

    // ----- CAN_Transmit -----

    /** The lowest-numbered mailbox read as empty, or NO_MAILBOX. */
    method SelectMailBox() returns (mailbox: nat)
      requires Valid()
      modifies this, sTxMailBox
      ensures Valid() && ControllerActed()
      ensures mailbox == 4 || (mailbox < 3 && SlotAt(mailbox).Empty? && EmptyBit(tsr, mailbox))
      ensures forall k: nat | k < 3 && k < mailbox :: !EmptyBit(old(tsr), k)
      ensures forall k: nat | k < 3 && k < mailbox :: old(SlotAt(k)).Busy?
    {
      hide Valid, FlagsOf, FrameOfTx, ShowsEmpty, Contents, EmptyBit;
      var v := ReadTsr();
      ShowsEmptyFlag(v, 0);
      FlagPositions(v, 0);
      FlagPositions(old(tsr), 0);
      if ShowsEmpty(v, 0) {
        mailbox := 0;
      } else {
        v := ReadTsr();
        ShowsEmptyFlag(v, 1);
        FlagPositions(v, 1);
        FlagPositions(old(tsr), 1);
        if ShowsEmpty(v, 1) {
          mailbox := 1;
        } else {
          v := ReadTsr();
          ShowsEmptyFlag(v, 2);
          FlagPositions(v, 2);
          FlagPositions(old(tsr), 2);
          if ShowsEmpty(v, 2) {
            mailbox := 2;
          } else {
            mailbox := NO_MAILBOX;
          }
        }
      }
    }

    /** The identifier: the register is cleared but for TXRQ, then or-ed with the identifier word. */
    method LoadIdentifier(m: nat, msg: CanTxMsg)
      requires Valid() && m < 3 && SlotAt(m).Empty? && Sendable(msg)
      modifies this, sTxMailBox
      ensures Valid() && ControllerOnly(old(history), history) && WrittenOnly(m)
      ensures SlotAt(m) == old(SlotAt(m))
      ensures sTxMailBox[m] == old(sTxMailBox[m]).(tir := IdWord(msg))
    {
      hide Valid, SlotAt, IdWord, Contents;
      EmptyRequestsNothing(m);
      IdWordRequestsNothing(msg);
      var v := ReadMailBox(m, TIR);
      WriteMailBox(m, TIR, v & TXRQ);
      v := ReadMailBox(m, TIR);
      OrZero(v, IdWord(msg));
      WriteMailBox(m, TIR, v | IdWord(msg));
    }

    /** The data length code, then the two data words. */
    method LoadContents(m: nat, msg: CanTxMsg)
      requires Valid() && m < 3 && SlotAt(m).Empty? && Sendable(msg)
      modifies this, sTxMailBox
      ensures Valid() && ControllerOnly(old(history), history) && WrittenOnly(m)
      ensures SlotAt(m) == old(SlotAt(m))
      ensures sTxMailBox[m] == old(sTxMailBox[m]).(
          tdtr := DlcWord(old(sTxMailBox[m]).tdtr, msg.dlc),
          tdlr := DataWord(msg.data, 0), tdhr := DataWord(msg.data, 4))
    {
      hide Valid, SlotAt, DataWord, Contents;
      var v := ReadMailBox(m, TDTR);
      WriteMailBox(m, TDTR, v & 0xFFFF_FFF0);
      v := ReadMailBox(m, TDTR);
      WriteMailBox(m, TDTR, v | (msg.dlc & 0x0F) as bv32);
      WriteMailBox(m, TDLR, DataWord(msg.data, 0));
      WriteMailBox(m, TDHR, DataWord(msg.data, 4));
    }

    lemma EmptyRequestsNothing(m: nat)
      requires Valid() && m < 3 && SlotAt(m).Empty?
      ensures !Requesting(sTxMailBox[m])
    {}

    /** Loads the empty mailbox `m` and requests its transmission. */
    method SendFrom(m: nat, msg: CanTxMsg)
      requires Valid() && m < 3 && SlotAt(m).Empty? && Sendable(msg)
      modifies this, sTxMailBox
      ensures Valid() && WrittenOnly(m)
      ensures |history| > 0 && ControllerOnly(old(history), history[..|history| - 1])
      ensures history[|history| - 1] == Accept(m, FrameOfMessage(msg))
    {
      hide Valid, SlotAt, FrameOfTx, IdWord, DataWord, DlcWord, FrameOfMessage, Sendable, Contents;
      ghost var tdtr := sTxMailBox[m].tdtr;
      LoadIdentifier(m, msg);
      LoadContents(m, msg);
      var v := ReadMailBox(m, TIR);
      RequestWord(v);
      LoadedFrame(msg, sTxMailBox[m].(tir := v | TXRQ), tdtr);
      WriteRequest(m, v | TXRQ);
    }

    method Transmit(msg: CanTxMsg) returns (mailbox: nat, masked: CanTxMsg)
      requires Valid() && Sendable(msg)
      modifies this, sTxMailBox
      ensures Valid()
      // No mailbox is written but the one returned: none at all when there is no mailbox.
      ensures WrittenOnly(mailbox)
      ensures masked == if mailbox == 4 then msg else msg.(dlc := msg.dlc & 0x0F)
      // No mailbox: nothing but the controller has acted, and every mailbox was busy at the call.
      ensures mailbox == 4 ==> ControllerOnly(old(history), history)
      // A mailbox: the last thing to happen is that it accepted the caller's frame.
      ensures mailbox != 4 ==>
        && mailbox < 3 && |history| > 0
        && ControllerOnly(old(history), history[..|history| - 1])
        && history[|history| - 1] == Accept(mailbox, FrameOfMessage(msg))
      ensures forall k: nat | k < 3 && k < mailbox :: old(SlotAt(k)).Busy?
      // A mailbox that was busy at the call is used only once the controller has finished it.
      ensures mailbox != 4 && old(SlotAt(mailbox)).Busy? ==>
        FinishedBetween(old(history), history, mailbox)
    {
      hide FlagsOf, FrameOfTx, MailBoxOk, FrameOfMessage, Contents;
      mailbox := SelectMailBox();
      masked := msg;
      if mailbox != NO_MAILBOX {
        masked := msg.(dlc := msg.dlc & 0x0F);
        SendFrom(mailbox, msg);
        ghost var last := |history| - 1;
        PrefixLegal(history, last);
        ControllerKeeps(old(history), history[..last], mailbox);
      }
    }

    // ----- CAN_TransmitStatus -----

    /** For a number that is no mailbox the code reports a pending transmission. */
    method TransmitStatus(mailbox: nat) returns (status: bv8)
      requires Valid()
      modifies this, sTxMailBox
      ensures Valid() && ControllerActed()
      ensures mailbox >= 3 ==> status == 2
      ensures mailbox < 3 ==> status == StatusShown(tsr, mailbox)
      ensures mailbox < 3 ==> status == StatusOf(SlotAt(mailbox))
      ensures mailbox < 3 ==> (status == 2 <==> Outstanding(history, mailbox))
      ensures mailbox < 3 ==> (status == 1 <==> SentAndNotCleared(history, mailbox))
    {
      hide FrameOfTx, Requesting, Legal, Replay, FlagsOf, Contents, StatusShown, StatusCode, SlotOf, MailBoxOk;
      var state: bv32;
      StatusCodeOfNothing();
      if mailbox < 3 {
        var v := ReadTsr();
        state := v & (Rqcp(mailbox) | Txok(mailbox) | Tme(mailbox));
        StatusCodeOfSlot(v, sTxMailBox[mailbox], mailbox);
        StatusOfBits(v, mailbox);
        StatusFromHistory(history, mailbox);
      } else {
        state := FAILED as bv32;
      }
      status := StatusCode(state);
    }

    // ----- CAN_CancelTransmit -----

    /** `read` is the length of the history when the status register was read, `seen` what it showed, and
        `written` what was written back. */
    method CancelTransmit(mailbox: nat) returns (ghost read: nat, ghost seen: bv32, ghost written: bv32)
      requires Valid()
      modifies this, sTxMailBox
      ensures Valid() && WrittenOnly(NO_MAILBOX)
      ensures mailbox >= 3 ==> history == old(history) && tsr == old(tsr) && sTxMailBox[..] == old(sTxMailBox[..])
      ensures mailbox < 3 ==>
        && |old(history)| <= read < |history|
        && AroundCancel(old(history), history[..read], history[..|history| - 1])
        && history[|history| - 1] == CancelWrite(Replay(history[..read]), mailbox)
        && CancelStatuses(history[..read], history[..|history| - 1])
        && AbortSet(seen, mailbox, written) && history[|history| - 1] == EventOf(written)
        && forall k: nat | k < 3 :: DoneBit(seen, k) == (k in DoneIn(Replay(history[..read])))
      // A mailbox that had failed stays failed.
      ensures forall k: nat | k < 3 && old(StatusOf(SlotAt(k))) == FAILED :: StatusOf(SlotAt(k)) == FAILED
    {
      hide FlagsOf, FrameOfTx, Requesting, Contents, CancelStatuses, AroundCancel, Legal, Replay, DoneIn, AbortingIn,
        AbortSet, EventOf, DoneBit;
      read, seen, written := 0, 0, 0;
      if mailbox < 3 {
        ghost var t := history;
        FailedNow();
        var v := ReadTsr();
        read := |history|;
        ghost var u := history;
        CancelledBits(v, mailbox);
        AbortOred(v, mailbox);
        EventOfBits(v | Abrq(mailbox));
        SeenDone(v);
        seen, written := v, v | Abrq(mailbox);
        WriteTsr(v | Abrq(mailbox));
        assert history[..read] == u;
        CancelShows(t, u, mailbox);
      }
    }

    /** The statuses are those `CancelOutcome` gives: the successes the read saw have become failures. */
    ghost predicate CancelStatuses(u: seq<Event>, w: seq<Event>)
      requires sTxMailBox.Length == 3 && Legal(u) && Legal(w)
      reads this, sTxMailBox
    {
      forall k: nat | k < 3 ::
        StatusOf(SlotAt(k)) == (if StatusOf(Replay(u)[k]) == OK then FAILED else StatusOf(Replay(w)[k]))
    }

    lemma SeenDone(v: bv32)
      requires Valid() && v == tsr
      ensures forall k: nat | k < 3 :: DoneBit(v, k) == (k in DoneIn(Replay(history)))
    {
      hide FlagsOf, FrameOfTx, Requesting, Legal, Replay, DoneBit, OkBit, EmptyBit, AbortBit;
      forall k: nat | k < 3 ensures DoneBit(v, k) == (k in DoneIn(Replay(history))) { FlagPositions(v, k); }
    }

    lemma FailedNow()
      requires Valid()
      ensures forall k: nat | k < 3 :: Replay(history)[k] == SlotAt(k)
    {}

    /** What a read of the status register gives the cancel to write back. */
    lemma CancelledBits(v: bv32, mailbox: nat)
      requires Valid() && v == tsr && mailbox < 3
      ensures StatusWrite(DoneBits(v | Abrq(mailbox)), AbortBits(v | Abrq(mailbox)))
           == CancelWrite(Replay(history), mailbox)
    {
      hide FlagsOf, FrameOfTx, Requesting, Legal, Replay;
      AbortRequestedBits(v, mailbox);
      assert DoneBits(v) == DoneIn(Replay(history)) && AbortBits(v) == AbortingIn(Replay(history));
    }

    lemma CancelShows(t: seq<Event>, u: seq<Event>, mailbox: nat)
      requires Valid() && Legal(t) && Legal(u) && ControllerOnly(t, u) && mailbox < 3
      requires |history| > 0 && ControllerOnly(u, history[..|history| - 1])
      requires history[|history| - 1] == CancelWrite(Replay(u), mailbox)
      ensures var w := history[..|history| - 1]; AroundCancel(t, u, w) && CancelStatuses(u, w)
      ensures forall k: nat | k < 3 && StatusOf(Replay(t)[k]) == FAILED :: StatusOf(SlotAt(k)) == FAILED
    {
      hide Legal, Replay, SlotAt, ControllerOnly, CancelWrite, MailBoxOk, FlagsOf;
      var w := history[..|history| - 1];
      assert history == w + [CancelWrite(Replay(u), mailbox)];
      PrefixLegal(history, |history| - 1);
      forall k: nat | k < 3
        ensures StatusOf(SlotAt(k)) == if StatusOf(Replay(u)[k]) == OK then FAILED else StatusOf(Replay(w)[k])
        ensures StatusOf(Replay(t)[k]) == FAILED ==> StatusOf(SlotAt(k)) == FAILED
      {
        CancelOutcome(u, w, mailbox, k);
        ControllerKeeps(t, u, k);
        ControllerKeeps(u, w, k);
      }
    }
  }

  lemma OrZero(v: bv32, w: bv32)
    requires v == 0
    ensures v | w == w
  {}

  lemma RequestWord(v: bv32)
    ensures (v | TXRQ) & TXRQ != 0
  {}

  lemma RequestDropped(b: TxMailBox)
    ensures !Requesting(b.(tir := WithoutRequest(b.tir)))
  {}

  /** What the controller never changes in a mailbox: all but the request bit and the time stamp. */
  function Contents(b: TxMailBox): TxMailBox {
    b.(tir := WithoutRequest(b.tir), tdtr := Untimed(b.tdtr))
  }

  lemma DropKeepsContents(b: TxMailBox)
    ensures Contents(b.(tir := WithoutRequest(b.tir))) == Contents(b)
  {
    hide WithoutRequest, Untimed;
    DroppedTwice(b.tir);
  }

  lemma DroppedTwice(v: bv32)
    ensures WithoutRequest(WithoutRequest(v)) == WithoutRequest(v)
  {}

  lemma StampKeepsContents(b: TxMailBox, stamp: bv32)
    ensures Contents(StampTime(b, stamp)) == Contents(b)
  {
    hide WithoutRequest, Untimed, Stamped;
    StampKeepsLow(b.tdtr, stamp);
  }

  function StampTime(b: TxMailBox, stamp: bv32): TxMailBox {
    b.(tdtr := Stamped(b.tdtr, stamp))
  }

  lemma StampKeeps(b: TxMailBox, stamp: bv32)
    ensures FrameOfTx(StampTime(b, stamp)) == FrameOfTx(b)
    ensures Requesting(StampTime(b, stamp)) == Requesting(b)
  {
    TimeStampIsNoFrame(b, stamp);
  }
}
