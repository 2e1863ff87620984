/** CanModes: the CAN master control, bit timing and status registers, and the two handshakes
that wait for the controller to acknowledge a mode.

The controller answers through MSR alone: read number `k` of it returns `msr(k)`, whatever that
is. The contracts hold for every such stream. */
module CanModes {

  // MCR bits
  const INRQ: bv32 := 0x01
  const SLEEP: bv32 := 0x02
  const TXFP: bv32 := 0x04
  const RFLM: bv32 := 0x08
  const NART: bv32 := 0x10
  const AWUM: bv32 := 0x20
  const ABOM: bv32 := 0x40
  const TTCM: bv32 := 0x80

  // MSR bits
  const INAK: bv32 := 0x01
  const SLAK: bv32 := 0x02

  const MODE_MASK: bv32 := 0x03
  const INAK_TIMEOUT: nat := 0xFFFF

  const FAILED: bv8 := 0
  const SUCCESS: bv8 := 1

  datatype Options = Options(ttcm: bool, abom: bool, awum: bool, nart: bool, rflm: bool, txfp: bool)

  datatype Timing = Timing(mode: bv32, sjw: bv32, bs1: bv32, bs2: bv32, prescaler: bv32)

  /** The ranges the parameter checks of CAN_Init allow. */
  predicate InRange(t: Timing) {
    t.mode < 4 && t.sjw < 4 && t.bs1 < 16 && t.bs2 < 8 && 1 <= t.prescaler <= 1024
  }

  function OptionsOf(mcr: bv32): Options {
    Options(mcr & TTCM != 0, mcr & ABOM != 0, mcr & AWUM != 0, mcr & NART != 0, mcr & RFLM != 0, mcr & TXFP != 0)
  }

  /** The fields of BTR as the controller reads them; the prescaler field holds one less. */
  function TimingOf(btr: bv32): Timing {
    Timing(btr >> 30, (btr >> 24) & 0x3, (btr >> 16) & 0xF, (btr >> 20) & 0x7, (btr & 0x3FF) + 1)
  }

  function BtrWord(t: Timing): bv32 {
    (t.mode << 30) | (t.sjw << 24) | (t.bs1 << 16) | (t.bs2 << 20) | (t.prescaler - 1)
  }

  lemma TimingRoundTrip(t: Timing)
    requires InRange(t)
    ensures TimingOf(BtrWord(t)) == t
  {}

  // ----- Waiting -----

  /** The last read of MSR in a wait that starts with read `from` and stops when `done` holds of a
      read, or after `budget` further reads. */
  function WaitEnd(msr: nat -> bv32, from: nat, done: bv32 -> bool, budget: nat): (last: nat)
    ensures from <= last <= from + budget
    ensures done(msr(last)) || last == from + budget
    ensures forall k: nat :: from <= k < last ==> !done(msr(k))
    decreases budget
  {
    if done(msr(from)) || budget == 0 then from else WaitEnd(msr, from + 1, done, budget - 1)
  }

  lemma WaitStep(msr: nat -> bv32, from: nat, done: bv32 -> bool, budget: nat)
    ensures WaitEnd(msr, from, done, budget)
         == if done(msr(from)) || budget == 0 then from else WaitEnd(msr, from + 1, done, budget - 1)
  {}

  function Entered(v: bv32): bool {
    v & INAK == INAK
  }

  function Left(v: bv32): bool {
    v & INAK != INAK
  }

  // ----- The registers -----

  datatype Access = ReadMsr(value: bv32) | WriteMcr(before: bv32, after: bv32) | WriteBtr

  /** A write that changes the bit timing or one of the six option bits. */
  predicate Configures(a: Access) {
    a.WriteBtr? || (a.WriteMcr? && OptionsDiffer(a.before, a.after))
  }

  predicate OptionsDiffer(before: bv32, after: bv32) {
    before & 0xFC != after & 0xFC
  }

  predicate Acknowledged(a: Access) {
    a.ReadMsr? && a.value & 0x1 == 0x1
  }

  /** Every configuring access from `start` on comes after a read of MSR that showed INAK, with no
      other read of MSR in between. */
  predicate Guarded(log: seq<Access>, start: nat) {
    forall i :: start <= i < |log| && Configures(log[i]) ==> GuardedAt(log, start, i)
  }

  predicate GuardedAt(log: seq<Access>, start: nat, i: nat)
    requires i < |log|
  {
    exists j :: start <= j < i && Acknowledged(log[j]) && forall k :: j < k < i ==> !log[k].ReadMsr?
  }

  // ----- What the contracts say of the registers themselves -----

  /** The reads of the wait for entry: none before the last shows bit 0 set, and the last does unless it
      is the 65536th. */
  predicate EntryWaited(msr: nat -> bv32, from: nat, last: nat) {
    && from <= last <= from + 65535
    && (forall k: nat | from <= k < last :: msr(k) & 0x1 == 0)
    && (msr(last) & 0x1 == 0x1 || last == from + 65535)
  }

  /** The wait for leaving ends when bit 0 is clear. */
  predicate LeaveWaited(msr: nat -> bv32, from: nat, last: nat) {
    && from <= last <= from + 65535
    && (forall k: nat | from <= k < last :: msr(k) & 0x1 == 0x1)
    && (msr(last) & 0x1 == 0 || last == from + 65535)
  }

  /** Bits 1 and 0 of MSR for each mode: initialisation 1, normal 0, sleep 2. They are also those of the
      request in MCR. */
  function ModeAnswer(mode: nat): bv32 {
    if mode == 0 then 0x1 else if mode == 1 then 0x0 else 0x2
  }

  predicate ModeWaited(msr: nat -> bv32, mode: nat, from: nat, last: nat) {
    && from <= last <= from + 65535
    && (forall k: nat | from <= k < last :: msr(k) & 0x3 != ModeAnswer(mode))
    && (msr(last) & 0x3 == ModeAnswer(mode) || last == from + 65535)
  }

  predicate OptionBits(mcr: bv32, o: Options) {
    && (mcr & 0x80 != 0) == o.ttcm && (mcr & 0x40 != 0) == o.abom && (mcr & 0x20 != 0) == o.awum
    && (mcr & 0x10 != 0) == o.nart && (mcr & 0x08 != 0) == o.rflm && (mcr & 0x04 != 0) == o.txfp
  }

  predicate TimingBits(btr: bv32, t: Timing) {
    && btr >> 30 == t.mode && (btr >> 24) & 0x3 == t.sjw && (btr >> 16) & 0xF == t.bs1
    && (btr >> 20) & 0x7 == t.bs2 && btr & 0x3FF == t.prescaler - 1
  }

  lemma EnteredBit(v: bv32)
    ensures Entered(v) == (v & 0x1 == 0x1) == !Left(v)
    ensures v & 0x1 == 0x1 || v & 0x1 == 0
  {}

  lemma EntryWait(msr: nat -> bv32, from: nat)
    ensures EntryWaited(msr, from, WaitEnd(msr, from, Entered, INAK_TIMEOUT))
  {
    hide Entered, WaitEnd;
    var last := WaitEnd(msr, from, Entered, INAK_TIMEOUT);
    forall k: nat | from <= k < last ensures msr(k) & 0x1 == 0 { EnteredBit(msr(k)); }
    EnteredBit(msr(last));
  }

  lemma LeaveWait(msr: nat -> bv32, from: nat)
    ensures LeaveWaited(msr, from, WaitEnd(msr, from, Left, INAK_TIMEOUT))
  {
    hide Entered, Left, WaitEnd;
    var last := WaitEnd(msr, from, Left, INAK_TIMEOUT);
    forall k: nat | from <= k < last ensures msr(k) & 0x1 == 0x1 { EnteredBit(msr(k)); }
    EnteredBit(msr(last));
  }

  lemma InModeBits(mode: nat, v: bv32)
    requires mode <= 2
    ensures InMode(mode, v) == (v & 0x3 == ModeAnswer(mode))
  {
    if mode == 0 {} else if mode == 1 {} else {}
  }

  lemma ModeWait(msr: nat -> bv32, mode: nat, from: nat)
    requires mode <= 2
    ensures ModeWaited(msr, mode, from, WaitEnd(msr, from, v => InMode(mode, v), INAK_TIMEOUT))
  {
    hide InMode, WaitEnd, ModeAnswer;
    var last := WaitEnd(msr, from, v => InMode(mode, v), INAK_TIMEOUT);
    forall k: nat | from <= k < last ensures msr(k) & 0x3 != ModeAnswer(mode) { InModeBits(mode, msr(k)); }
    InModeBits(mode, msr(last));
  }

  lemma OptionPositions(mcr: bv32)
    ensures OptionBits(mcr, OptionsOf(mcr))
  {}

  lemma TimingPositions(btr: bv32)
    ensures TimingBits(btr, TimingOf(btr))
  {}

  /** The last `n` accesses were preceded by writing `mcr`. */
  predicate WrittenBefore(log: seq<Access>, n: nat, mcr: bv32) {
    n < |log| && log[|log| - n - 1].WriteMcr? && log[|log| - n - 1].after == mcr
  }

  /** MCR while initialisation is requested. */
  predicate AskedToInitialise(before: bv32, after: bv32) {
    after == (before & 0xFFFF_FFFD) | 0x1
  }

  lemma AskedBits(mcr: bv32)
    ensures AskedToInitialise(mcr, Requested(mcr))
  {}

  class ModeUnit {
    var mcr: bv32
    var btr: bv32
    const msr: nat -> bv32
    var polled: nat
    ghost var log: seq<Access>

    constructor (msr: nat -> bv32)
      ensures this.msr == msr && polled == 0 && log == []
    {
      mcr, btr := 0x0001_0002, 0x0123_0000;
      this.msr := msr;
      polled, log := 0, [];
    }

    method ReadMsr() returns (v: bv32)
      modifies this`polled, this`log
      ensures v == msr(old(polled)) && polled == old(polled) + 1
      ensures log == old(log) + [Access.ReadMsr(v)]
    {
      v := msr(polled);
      polled := polled + 1;
      log := log + [Access.ReadMsr(v)];
    }

    method SetMcr(v: bv32)
      modifies this`mcr, this`log
      ensures mcr == v && log == old(log) + [WriteMcr(old(mcr), v)]
    {
      log := log + [WriteMcr(mcr, v)];
      mcr := v;
    }

    method SetBtr(v: bv32)
      modifies this`btr, this`log
      ensures btr == v && log == old(log) + [WriteBtr]
    {
      log := log + [WriteBtr];
      btr := v;
    }

    /** Polls MSR until `done` holds of a read, or INAK_TIMEOUT + 1 reads have been made. */
    method Wait(done: bv32 -> bool)
      modifies this`polled, this`log
      ensures polled == WaitEnd(msr, old(polled), done, INAK_TIMEOUT) + 1
      ensures OnlyReads(old(log), log) && |log| - |old(log)| == polled - old(polled)
    {
      hide WaitEnd;
      ghost var start := polled;
      var waitAck := 0;
      var v := ReadMsr();
      while !done(v) && waitAck != INAK_TIMEOUT
        invariant waitAck <= INAK_TIMEOUT
        invariant polled == start + waitAck + 1 && v == msr(polled - 1)
        invariant WaitEnd(msr, start, done, INAK_TIMEOUT) == WaitEnd(msr, polled - 1, done, INAK_TIMEOUT - waitAck)
        invariant OnlyReads(old(log), log) && |log| - |old(log)| == polled - start
      {
        WaitStep(msr, polled - 1, done, INAK_TIMEOUT - waitAck);
        waitAck := waitAck + 1;
        v := ReadMsr();
      }
      WaitStep(msr, polled - 1, done, INAK_TIMEOUT - waitAck);
    }

    // ----- CAN_Init -----

    /** Sets or clears one option bit, and no other bit of MCR. */
    method SetOption(bit: bv32, on: bool)
      modifies this`mcr, this`log
      ensures mcr == Switched(old(mcr), bit, on)
      ensures log == old(log) + [WriteMcr(old(mcr), mcr)]
    {
      if on { SetMcr(mcr | bit); } else { SetMcr(mcr & !bit); }
    }

    method SetOptions(o: Options)
      modifies this`mcr, this`log
      ensures OptionsOf(mcr) == o && OptionsOnly(old(mcr), mcr)
      ensures OnlyMcr(old(log), log)
    {
      hide Switched, OptionsOf, OptionsOnly;
      SetOption(TTCM, o.ttcm);
      SetOption(ABOM, o.abom);
      SetOption(AWUM, o.awum);
      SetOption(NART, o.nart);
      SetOption(RFLM, o.rflm);
      SetOption(TXFP, o.txfp);
      AllSwitched(old(mcr), o);
      OnlyOptionsSwitched(old(mcr), o);
    }

    /** `check` is the read that decides whether initialisation mode was entered. */
    method Init(o: Options, t: Timing) returns (status: bv8, ghost check: nat)
      requires InRange(t)
      modifies this
      ensures polled <= old(polled) + 131074
      ensures Guarded(log, |old(log)|)
      // The entry is decided by the read after the first wait.
      ensures check > old(polled) && EntryWaited(msr, old(polled), check - 1)
      ensures msr(check) & 0x1 == 0 ==>
        // Refused: only the mode request bits have changed.
        && status == 0 && polled == check + 1
        && btr == old(btr) && AskedToInitialise(old(mcr), mcr)
      ensures msr(check) & 0x1 != 0 ==>
        && TimingBits(btr, t) && TimingOf(btr) == t
        && OptionBits(mcr, o) && OptionsOf(mcr) == o && NormalMode(old(mcr), mcr)
        && polled > check + 2 && LeaveWaited(msr, check + 1, polled - 2)
        && status == (if msr(polled - 1) & 0x1 == 0 then 1 else 0)
        // The request was withdrawn before the reads that wait for it.
        && WrittenBefore(log, polled - check - 1, mcr)
      ensures |log| > |old(log)| + 1 && log[|old(log)| + 1].WriteMcr?
        && AskedToInitialise(old(mcr), log[|old(log)| + 1].after)
    {
      hide OptionBits, TimingBits, EntryWaited, LeaveWaited, AskedToInitialise;
      hide Entered, Left, OptionsOf, TimingOf, WaitEnd, Guarded, Acknowledged, NoneConfigures, Requested, Released,
        OptionsOnly, NormalMode;
      ghost var l0 := log;
      EntryWait(msr, polled);
      AskedBits(mcr);
      var entered := Enter();
      check := polled - 1;
      EnteredBit(msr(check));
      ghost var l1, asked := log, mcr;
      if !entered {
        status := FAILED;
        Nothing(l1);
        GuardedRun(l0, l1, l1, l1);
      } else {
        Configure(o, t);
        ghost var l2 := log;
        LeaveBits(old(mcr), asked, mcr);
        status := Leave();
        OptionPositions(mcr);
        TimingPositions(btr);
        GuardedRun(l0, l1, l2, log);
      }
    }

    /** Asks for initialisation mode and waits for the acknowledgement. */
    method Enter() returns (entered: bool)
      modifies this`mcr, this`polled, this`log
      ensures mcr == Requested(old(mcr))
      ensures polled == WaitEnd(msr, old(polled), Entered, INAK_TIMEOUT) + 2
      ensures entered == Entered(msr(polled - 1)) == (msr(polled - 1) & 0x1 == 0x1)
      ensures NoneConfigures(old(log), log)
      ensures |log| - |old(log)| == polled - old(polled) + 2
      ensures log[|old(log)| + 1].WriteMcr? && log[|old(log)| + 1].after == mcr
      ensures |log| > |old(log)| && (entered ==> Acknowledged(log[|log| - 1]))
    {
      hide WaitEnd, OptionsDiffer, Awake;
      RequestBits(mcr);
      SetMcr(Awake(mcr));
      SetMcr(mcr | INRQ);
      Wait(Entered);
      var v := ReadMsr();
      entered := Entered(v);
      EnteredBit(v);
    }

    /** Writes the six option bits and the bit timing. */
    method Configure(o: Options, t: Timing)
      requires InRange(t)
      modifies this`mcr, this`btr, this`log
      ensures OptionsOf(mcr) == o && OptionsOnly(old(mcr), mcr) && TimingOf(btr) == t
      ensures NoneReads(old(log), log)
    {
      hide OptionsOf, TimingOf, BtrWord;
      SetOptions(o);
      TimingRoundTrip(t);
      SetBtr(BtrWord(t));
    }

    /** Asks to leave initialisation mode and waits for the acknowledgement. */
    method Leave() returns (status: bv8)
      modifies this`mcr, this`polled, this`log
      ensures mcr == Released(old(mcr)) && OptionsOf(mcr) == OptionsOf(old(mcr))
      ensures polled == WaitEnd(msr, old(polled), Left, INAK_TIMEOUT) + 2
      ensures LeaveWaited(msr, old(polled), polled - 2)
      ensures status == if msr(polled - 1) & 0x1 == 0 then 1 else 0
      ensures NoneConfigures(old(log), log)
      ensures old(log) <= log && |log| - |old(log)| == polled - old(polled) + 1
      ensures log[|old(log)|] == WriteMcr(old(mcr), mcr)
    {
      hide Left, WaitEnd, OptionsOf, OptionsDiffer, Released, LeaveWaited;
      LeaveWait(msr, polled);
      KeepOptions(mcr);
      ReleaseBits(mcr);
      SetMcr(Released(mcr));
      Wait(Left);
      var v := ReadMsr();
      EnteredBit(v);
      status := if Left(v) then SUCCESS else FAILED;
    }

    // ----- CAN_OperatingModeRequest -----

    method OperatingModeRequest(mode: nat) returns (status: bv8)
      modifies this`mcr, this`polled, this`log
      ensures polled <= old(polled) + 65537
      ensures mode > 2 ==> status == 0 && mcr == old(mcr) && polled == old(polled)
      ensures mode <= 2 ==>
        // INRQ and SLEEP are the pair of the mode, all else is kept, and the last read decides.
        && ModeBits(mcr) == ModeAnswer(mode) && OtherBits(mcr) == OtherBits(old(mcr))
        && polled > old(polled) + 1 && ModeWaited(msr, mode, old(polled), polled - 2)
        && status == (if msr(polled - 1) & 0x3 == ModeAnswer(mode) then 1 else 0)
        && WrittenBefore(log, polled - old(polled), mcr)
    {
      hide InMode, WaitEnd, ModeBits, OtherBits, ModeRequest, RequestPair, ModeAnswer, ModeWaited;
      status := FAILED;
      if mode <= SLEEP_MODE {
        RequestedMode(mcr, mode);
        RequestKeepsRest(mcr, mode);
        PairIsAnswer(mode);
        ModeWait(msr, mode, polled);
        SetMcr(ModeRequest(mcr, mode));
        Wait(v => InMode(mode, v));
        var v := ReadMsr();
        InModeBits(mode, v);
        status := if InMode(mode, v) then SUCCESS else FAILED;
      }
    }
  }

  const INITIALIZATION: nat := 0
  const NORMAL: nat := 1
  const SLEEP_MODE: nat := 2

  /** INRQ and SLEEP. */
  function ModeBits(mcr: bv32): bv32 {
    mcr & 0x3
  }

  function OtherBits(mcr: bv32): bv32 {
    mcr & 0xFFFF_FFFC
  }

  function RequestPair(mode: nat): bv32 {
    if mode == INITIALIZATION then INRQ else if mode == NORMAL then 0 else SLEEP
  }

  function InitializationRequest(mcr: bv32): bv32 {
    (mcr & 0xFFFF_FFFD) | 0x1
  }

  function NormalRequest(mcr: bv32): bv32 {
    mcr & 0xFFFF_FFFC
  }

  function SleepRequest(mcr: bv32): bv32 {
    (mcr & 0xFFFF_FFFE) | 0x2
  }

  function ModeRequest(mcr: bv32, mode: nat): bv32 {
    if mode == INITIALIZATION then InitializationRequest(mcr)
    else if mode == NORMAL then NormalRequest(mcr)
    else SleepRequest(mcr)
  }

  /** MSR shows the mode: INAK alone, neither, or SLAK alone. */
  predicate InMode(mode: nat, v: bv32) {
    v & MODE_MASK == if mode == INITIALIZATION then INAK else if mode == NORMAL then 0 else SLAK
  }

  lemma PairIsAnswer(mode: nat)
    ensures RequestPair(mode) == ModeAnswer(mode)
  {}

  lemma RequestedPairs(mcr: bv32)
    ensures ModeBits(InitializationRequest(mcr)) == 0x1
    ensures ModeBits(NormalRequest(mcr)) == 0
    ensures ModeBits(SleepRequest(mcr)) == 0x2
  {}

  lemma RequestedMode(mcr: bv32, mode: nat)
    ensures ModeBits(ModeRequest(mcr, mode)) == RequestPair(mode)
  {
    hide ModeBits, InitializationRequest, NormalRequest, SleepRequest;
    RequestedPairs(mcr);
  }

  lemma InitializationKeepsRest(mcr: bv32)
    ensures OtherBits(InitializationRequest(mcr)) == OtherBits(mcr)
  {}

  lemma NormalKeepsRest(mcr: bv32)
    ensures OtherBits(NormalRequest(mcr)) == OtherBits(mcr)
  {}

  lemma SleepKeepsRest(mcr: bv32)
    ensures OtherBits(SleepRequest(mcr)) == OtherBits(mcr)
  {}

  lemma RequestKeepsRest(mcr: bv32, mode: nat)
    ensures OtherBits(ModeRequest(mcr, mode)) == OtherBits(mcr)
  {
    hide OtherBits, InitializationRequest, NormalRequest, SleepRequest;
    InitializationKeepsRest(mcr);
    NormalKeepsRest(mcr);
    SleepKeepsRest(mcr);
  }

  predicate NoneConfigures(before: seq<Access>, after: seq<Access>) {
    before <= after && forall i :: |before| <= i < |after| ==> !Configures(after[i])
  }

  lemma Nothing(log: seq<Access>)
    ensures NoneConfigures(log, log)
  {}

  predicate NoneReads(before: seq<Access>, after: seq<Access>) {
    before <= after && forall i :: |before| <= i < |after| ==> !after[i].ReadMsr?
  }

  /** A run that configures only between an acknowledged read at the end of `l1` and the end of `l2`,
      and reads nothing there, is guarded. */
  lemma GuardedRun(l0: seq<Access>, l1: seq<Access>, l2: seq<Access>, l3: seq<Access>)
    requires NoneConfigures(l0, l1) && NoneReads(l1, l2) && NoneConfigures(l2, l3)
    requires |l0| < |l1| && (l1 == l2 || Acknowledged(l1[|l1| - 1]))
    ensures Guarded(l3, |l0|)
  {
    hide Configures;
    forall i | |l0| <= i < |l3| && Configures(l3[i])
      ensures GuardedAt(l3, |l0|, i)
    {
      assert forall k :: |l0| <= k < |l1| ==> l3[k] == l1[k];
      assert |l1| <= i < |l2|;
      assert l3[|l1| - 1] == l1[|l1| - 1] && Acknowledged(l3[|l1| - 1]);
    }
  }

  /** The request to initialise: out of sleep, INRQ set. */
  function Requested(mcr: bv32): bv32 {
    Awake(mcr) | INRQ
  }

  function Awake(mcr: bv32): bv32 {
    mcr & !SLEEP
  }

  function Released(mcr: bv32): bv32 {
    mcr & !INRQ
  }

  /** Nothing but the six option bits differs. */
  predicate OptionsOnly(before: bv32, after: bv32) {
    Rest(after) == Rest(before)
  }

  function Rest(mcr: bv32): bv32 {
    mcr & 0xFFFF_FF03
  }

  /** INRQ and SLEEP are clear, and the bits above the low byte are kept. */
  predicate NormalMode(before: bv32, after: bv32) {
    after & 0x03 == 0 && after & !0xFF == before & !0xFF
  }

  function Switched(w: bv32, bit: bv32, on: bool): bv32 {
    if on then w | bit else w & !bit
  }

  function Configured(mcr: bv32, o: Options): bv32 {
    Switched(Switched(Switched(Switched(Switched(Switched(mcr, TTCM, o.ttcm),
      ABOM, o.abom), AWUM, o.awum), NART, o.nart), RFLM, o.rflm), TXFP, o.txfp)
  }

  lemma AllSwitched(mcr: bv32, o: Options)
    ensures OptionsOf(Configured(mcr, o)) == o
  {}

  lemma OnlyOptionsSwitched(mcr: bv32, o: Options)
    ensures OptionsOnly(mcr, Configured(mcr, o))
  {
    hide Switched, Rest;
    OneSwitch(mcr, TTCM, o.ttcm);
    var w := Switched(mcr, TTCM, o.ttcm);
    OneSwitch(w, ABOM, o.abom);
    w := Switched(w, ABOM, o.abom);
    OneSwitch(w, AWUM, o.awum);
    w := Switched(w, AWUM, o.awum);
    OneSwitch(w, NART, o.nart);
    w := Switched(w, NART, o.nart);
    OneSwitch(w, RFLM, o.rflm);
    w := Switched(w, RFLM, o.rflm);
    OneSwitch(w, TXFP, o.txfp);
  }

  lemma OneSwitch(mcr: bv32, bit: bv32, on: bool)
    requires bit & 0xFFFF_FF03 == 0
    ensures Rest(Switched(mcr, bit, on)) == Rest(mcr)
  {}

  lemma RequestBits(mcr: bv32)
    ensures !Configures(WriteMcr(mcr, Awake(mcr)))
    ensures !Configures(WriteMcr(Awake(mcr), Requested(mcr)))
  {}

  lemma LeaveBits(was: bv32, asked: bv32, mcr: bv32)
    requires asked == Requested(was) && OptionsOnly(asked, mcr)
    ensures NormalMode(was, Released(mcr))
  {}

  lemma KeepOptions(mcr: bv32)
    ensures OptionsOf(Released(mcr)) == OptionsOf(mcr)
  {}

  lemma ReleaseBits(mcr: bv32)
    ensures !Configures(WriteMcr(mcr, Released(mcr)))
  {}

  predicate OnlyMcr(before: seq<Access>, after: seq<Access>) {
    before <= after && forall i :: |before| <= i < |after| ==> after[i].WriteMcr?
  }

  predicate OnlyReads(before: seq<Access>, after: seq<Access>) {
    before <= after && forall i :: |before| <= i < |after| ==> after[i].ReadMsr?
  }
}
