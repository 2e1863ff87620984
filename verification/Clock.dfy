/** Clock: the clock registers, the bring-up to 72 MHz after reset, and the frequency read-back, for
the lines that are neither connectivity nor value line.

Read number `k` of CR shows the ready bits of `ready(k)`. At the register accesses for which `follows`
holds the clock in use becomes the clock selected; CFGR shows the clock in use. An oscillator or a PLL
that is in use cannot be switched off (`Held`). */
module Clock {
  import opened Runs

  // ----- Fields -----

  predicate PllOn(cr: bv32) {
    cr & 0x0100_0000 != 0
  }

  /** The ready bits the hardware shows: HSERDY is bit 17, PLLRDY bit 25. */
  predicate ShowsHse(bits: bv32) {
    bits & 0x0002_0000 != 0
  }

  predicate ShowsPll(bits: bv32) {
    bits & 0x0200_0000 != 0
  }

  /** The driver's tests of a word read from CR. */
  predicate HseReady(v: bv32) {
    v & 0x0002_0000 != 0
  }

  predicate PllReady(v: bv32) {
    v & 0x0200_0000 != 0
  }

  /** The oscillator and PLL switches of CR: HSION, HSEON, HSEBYP, CSSON and PLLON. */
  function Switches(cr: bv32): bv32 {
    cr & 0x010D_0001
  }

  /** The settings CFGR holds: the system clock switch (0 HSI, 1 HSE, 2 PLL), the three bus prescalers,
      in one field the PLL's source, input halving and multiplier, and the remaining fields together
      (ADC and USB prescalers and clock output). */
  datatype Settings = Settings(sw: bv32, hpre: bv32, ppre1: bv32, ppre2: bv32, pll: bv32, rest: bv32)

  function Decoded(cfgr: bv32): Settings {
    Settings(cfgr & 0x3, (cfgr >> 4) & 0xF, (cfgr >> 8) & 0x7, (cfgr >> 11) & 0x7, (cfgr >> 16) & 0x3F,
             cfgr & 0x0740_C000)
  }

  const RESET: Settings := Settings(0, 0, 0, 0, 0, 0)
  const AT_72_MHZ: Settings := Settings(2, 0, 4, 0, 0x1D, 0)

  /** Switch status: the clock in use. */
  function Sws(cfgr: bv32): bv32 {
    (cfgr >> 2) & 0x3
  }

  function Latency(acr: bv32): bv32 {
    acr & 0x3
  }

  predicate Prefetching(acr: bv32) {
    acr & 0x10 != 0
  }

  // The words that the bring-up leaves in CFGR and ACR, but for reserved and read-only bits.

  predicate WordAt72(cfgr: bv32) {
    cfgr & 0x077F_FFF3 == 0x001D_0402
  }

  predicate WordReset(cfgr: bv32) {
    cfgr & 0x077F_FFF3 == 0
  }

  predicate FlashWord(acr: bv32) {
    acr & 0x13 == 0x12
  }

  lemma WordsDecoded(cfgr: bv32)
    ensures Decoded(cfgr) == AT_72_MHZ ==> WordAt72(cfgr)
    ensures Decoded(cfgr) == RESET ==> WordReset(cfgr)
  {}

  lemma FlashDecoded(acr: bv32)
    ensures Latency(acr) == 2 && Prefetching(acr) ==> FlashWord(acr)
  {}

  const HSE_STARTUP_TIMEOUT: nat := 0x0500

  // ----- Register words -----

  /** CR without its read-only ready bits. */
  function Writable(v: bv32): bv32 {
    v & 0xFDFD_FFFD
  }

  function WithReady(cr: bv32, bits: bv32): bv32 {
    (cr & 0xFDFD_FFFD) | (bits & 0x0202_0002)
  }

  /** CFGR without its read-only switch status. */
  function Settable(v: bv32): bv32 {
    v & 0xFFFF_FFF3
  }

  function WithStatus(cfgr: bv32, bits: bv32): bv32 {
    (cfgr & 0xFFFF_FFF3) | (bits & 0xC)
  }

  function Or(v: bv32, m: bv32): bv32 {
    v | m
  }

  function And(v: bv32, m: bv32): bv32 {
    v & m
  }

  lemma SetBeside(w: bv32, bits: bv32, k: bv32, n: bv32, m: bv32)
    requires n & k == 0
    ensures (((w & k) | (bits & n)) | m) & k == (w | m) & k
  {}

  lemma KeepBeside(w: bv32, bits: bv32, k: bv32, n: bv32, m: bv32)
    requires n & k == 0
    ensures (((w & k) | (bits & n)) & m) & k == (w & m) & k
  {}

  lemma SetBesideReady(cr: bv32, bits: bv32, m: bv32)
    ensures Writable(Or(WithReady(cr, bits), m)) == Writable(Or(cr, m))
  {
    calc {
      Writable(Or(WithReady(cr, bits), m));
      (((cr & 0xFDFD_FFFD) | (bits & 0x0202_0002)) | m) & 0xFDFD_FFFD;
      { SetBeside(cr, bits, 0xFDFD_FFFD, 0x0202_0002, m); }
      (cr | m) & 0xFDFD_FFFD;
      Writable(Or(cr, m));
    }
  }

  lemma KeepBesideReady(cr: bv32, bits: bv32, m: bv32)
    ensures Writable(And(WithReady(cr, bits), m)) == Writable(And(cr, m))
  {
    calc {
      Writable(And(WithReady(cr, bits), m));
      (((cr & 0xFDFD_FFFD) | (bits & 0x0202_0002)) & m) & 0xFDFD_FFFD;
      { KeepBeside(cr, bits, 0xFDFD_FFFD, 0x0202_0002, m); }
      (cr & m) & 0xFDFD_FFFD;
      Writable(And(cr, m));
    }
  }

  lemma SetBesideStatus(cfgr: bv32, bits: bv32, m: bv32)
    ensures Settable(Or(WithStatus(cfgr, bits), m)) == Settable(Or(cfgr, m))
  {
    calc {
      Settable(Or(WithStatus(cfgr, bits), m));
      (((cfgr & 0xFFFF_FFF3) | (bits & 0xC)) | m) & 0xFFFF_FFF3;
      { SetBeside(cfgr, bits, 0xFFFF_FFF3, 0xC, m); }
      (cfgr | m) & 0xFFFF_FFF3;
      Settable(Or(cfgr, m));
    }
  }

  lemma KeepBesideStatus(cfgr: bv32, bits: bv32, m: bv32)
    ensures Settable(And(WithStatus(cfgr, bits), m)) == Settable(And(cfgr, m))
  {
    calc {
      Settable(And(WithStatus(cfgr, bits), m));
      (((cfgr & 0xFFFF_FFF3) | (bits & 0xC)) & m) & 0xFFFF_FFF3;
      { KeepBeside(cfgr, bits, 0xFFFF_FFF3, 0xC, m); }
      (cfgr & m) & 0xFFFF_FFF3;
      Settable(And(cfgr, m));
    }
  }

  lemma PllBit(bits: bv32)
    ensures ShowsPll(bits) == (bits & 0x0200_0000 != 0)
  {}

  lemma HseReadyRead(cr: bv32, bits: bv32)
    ensures HseReady(WithReady(cr, bits)) == ShowsHse(bits)
  {}

  lemma PllReadyRead(cr: bv32, bits: bv32)
    ensures PllReady(WithReady(cr, bits)) == ShowsPll(bits)
  {}

  /** The status bits once the selected clock is in use. */
  function StatusFor(cfgr: bv32): bv32 {
    (cfgr & 0x3) << 2
  }

  lemma StatusOfSelected(cfgr: bv32)
    ensures Sws(StatusFor(cfgr)) == Decoded(cfgr).sw
  {}

  // ----- The clock in use -----

  /** The clock in use after `n` accesses from access `from` on, while `sw` is selected. */
  ghost function InUse(follows: nat -> bool, from: nat, n: nat, sw: bv32, now: bv32): (r: bv32)
    ensures r == sw || r == now
  {
    if exists k :: from <= k < from + n && follows(k) then sw else now
  }

  lemma InUseSplit(follows: nat -> bool, from: nat, m: nat, n: nat, sw: bv32, now: bv32)
    ensures InUse(follows, from, m + n, sw, now) == InUse(follows, from + m, n, sw, InUse(follows, from, m, sw, now))
  {
    if k :| from <= k < from + m + n && follows(k) {
      assert from <= k < from + m || from + m <= k < from + m + n;
    }
  }

  /** The bits of CR that no write clears: the PLL in use stays on, and so does HSE when it is in use or
      feeds the PLL in use. */
  function HeldOn(cr: bv32, inUse: bv32, pll: bv32): bv32 {
    if inUse == 1 then cr & 0x0001_0000
    else if inUse == 2 then (if pll & 1 == 0 then cr & 0x0100_0000 else cr & 0x0101_0000)
    else 0
  }

  /** What CR becomes when `v` is written. */
  function Held(cr: bv32, v: bv32, inUse: bv32, pll: bv32): bv32 {
    v | HeldOn(cr, inUse, pll)
  }

  // ----- What must hold at every step -----

  /** `inUse` is the clock in use; `locked`: the PLL has been read as ready since it was switched on. */
  datatype Snapshot = Snapshot(cr: bv32, cfgr: bv32, acr: bv32, inUse: bv32, locked: bool)

  predicate Safe(s: Snapshot) {
    Decoded(s.cfgr).sw == 2 || s.inUse == 2 ==>
      Latency(s.acr) == 2 && Decoded(s.cfgr).ppre1 == 4 && PllOn(s.cr) && s.locked
  }

  /** The PLL's source and multiplier change only while it is off. */
  predicate PllStable(s: Snapshot, t: Snapshot) {
    Decoded(s.cfgr).pll != Decoded(t.cfgr).pll ==> !PllOn(s.cr) && !PllOn(t.cr)
  }

  ghost predicate GoodTrail(trail: seq<Snapshot>) {
    && (forall i :: 0 <= i < |trail| ==> Safe(trail[i]))
    && (forall i :: 0 < i < |trail| ==> PllStable(trail[i - 1], trail[i]))
  }

  lemma GoodAppend(trail: seq<Snapshot>, s: Snapshot)
    requires |trail| > 0
    ensures GoodTrail(trail + [s]) <==> GoodTrail(trail) && Safe(s) && PllStable(trail[|trail| - 1], s)
  {
    hide Safe, PllStable;
    var t := trail + [s];
    if GoodTrail(t) {
      forall i | 0 <= i < |trail| ensures Safe(trail[i]) { assert t[i] == trail[i]; }
      forall i | 0 < i < |trail| ensures PllStable(trail[i - 1], trail[i]) {
        assert t[i - 1] == trail[i - 1] && t[i] == trail[i];
      }
      assert Safe(t[|trail|]) && PllStable(t[|trail| - 1], t[|trail|]);
    }
  }

  lemma GoodPrefix(before: seq<Snapshot>, after: seq<Snapshot>)
    requires before <= after && GoodTrail(after)
    ensures GoodTrail(before)
  {
    hide Safe, PllStable;
    forall i | 0 <= i < |before| ensures Safe(before[i]) { assert after[i] == before[i]; }
    forall i | 0 < i < |before| ensures PllStable(before[i - 1], before[i]) {
      assert after[i - 1] == before[i - 1] && after[i] == before[i];
    }
  }

  /** Taking the settings of CFGR back is safe exactly when the PLL is not in use. */
  lemma ResetSafeIff(s: Snapshot)
    ensures Safe(s.(cfgr := Settable(And(s.cfgr, 0xF8FF_0000)))) <==> s.inUse != 2
  {
    hide Decoded, Settable, And, Latency, PllOn;
    SettingsReset(s.cfgr);
  }

  // ----- What the hardware is trusted with: once the oscillator is ready, the waits that have no limit end -----

  ghost predicate LocksAfter(ready: nat -> bv32, k: nat) {
    exists j :: k <= j && ShowsPll(ready(j))
  }

  ghost predicate FollowsAfter(follows: nat -> bool, k: nat) {
    exists j :: k <= j && follows(j)
  }

  ghost predicate Answers(ready: nat -> bv32, follows: nat -> bool) {
    forall h, k :: ShowsHse(ready(h)) ==> LocksAfter(ready, k) && FollowsAfter(follows, k)
  }

  lemma Answered(ready: nat -> bv32, follows: nat -> bool, h: nat)
    requires Answers(ready, follows) && ShowsHse(ready(h))
    ensures forall k :: LocksAfter(ready, k)
    ensures forall k :: FollowsAfter(follows, k)
  {
    hide HseReady, ShowsHse, LocksAfter, FollowsAfter;
  }

  // ----- The steps of the bring-up, on the words -----

  lemma KeptTwice(v: bv32, m: bv32)
    ensures (v & m) & m == v & m
  {}

  lemma OtherBitsReset(rest: bv32)
    requires rest == rest & 0x0040_0000
    ensures rest & 0x0700_C000 == 0
  {}

  /** HSI alone is on, or HSE as well. */
  predicate Basic(cr: bv32) {
    Switches(cr) == 0x1 || Switches(cr) == 0x0001_0001
  }

  predicate HsiOn(cr: bv32) {
    cr & 0x1 == 0x1
  }

  /** HSI is on, and the PLL and the clock security system are off. */
  predicate Reduced(cr: bv32) {
    HsiOn(cr) && cr & 0x0108_0000 == 0
  }

  // A write while the PLL is not in use keeps at most HSE on.

  lemma HeldAtMostHse(cr: bv32, inUse: bv32, pll: bv32)
    requires inUse != 2
    ensures HeldOn(cr, inUse, pll) == 0 || HeldOn(cr, inUse, pll) == cr & 0x0001_0000
  {}

  lemma HsiSwitched(cr: bv32, h: bv32)
    ensures HsiOn(Writable(Or(cr, 0x1)) | h)
  {}

  lemma PllStaysOn(cr: bv32, h: bv32)
    ensures PllOn(cr) ==> PllOn(Writable(Or(cr, 0x1)) | h)
  {}

  /** Switching HSI on switches nothing off. */
  lemma HsiStep(cr: bv32, inUse: bv32, pll: bv32)
    ensures var c := Held(cr, Writable(Or(cr, 0x1)), inUse, pll); HsiOn(c) && (PllOn(cr) ==> PllOn(c))
  {
    hide HsiOn, PllOn, Writable, Or, HeldOn;
    HsiSwitched(cr, HeldOn(cr, inUse, pll));
    PllStaysOn(cr, HeldOn(cr, inUse, pll));
  }

  lemma ReducedWord(cr: bv32, h: bv32)
    requires HsiOn(cr) && (h == 0 || h == cr & 0x0001_0000)
    ensures Reduced(Writable(And(cr, 0xFEF6_FFFF)) | h)
  {}

  lemma BasicWord(cr: bv32, h: bv32)
    requires Reduced(cr) && (h == 0 || h == cr & 0x0001_0000)
    ensures Basic(Writable(And(cr, 0xFFFB_FFFF)) | h)
  {}

  lemma HseWord(cr: bv32, h: bv32)
    requires Basic(cr) && (h == 0 || h == cr & 0x0001_0000)
    ensures Switches(Writable(Or(cr, 0x0001_0000)) | h) == 0x0001_0001
  {}

  lemma PllWord(cr: bv32, h: bv32)
    requires Switches(cr) == 0x0001_0001 && (h == 0 || h == cr & 0x0001_0000)
    ensures Switches(Writable(Or(cr, 0x0100_0000)) | h) == 0x0101_0001
  {}

  lemma BasicPllOff(cr: bv32)
    ensures Basic(cr) ==> !PllOn(cr)
  {}

  lemma PllSwitched(cr: bv32, h: bv32)
    ensures PllOn(Writable(Or(cr, 0x0100_0000)) | h)
  {}

  lemma ReducedStep(cr: bv32, inUse: bv32, pll: bv32)
    requires HsiOn(cr) && inUse != 2
    ensures Reduced(Held(cr, Writable(And(cr, 0xFEF6_FFFF)), inUse, pll))
  {
    hide HsiOn, Reduced, Writable, And, HeldOn;
    HeldAtMostHse(cr, inUse, pll);
    ReducedWord(cr, HeldOn(cr, inUse, pll));
  }

  lemma BasicStep(cr: bv32, inUse: bv32, pll: bv32)
    requires Reduced(cr) && inUse != 2
    ensures Basic(Held(cr, Writable(And(cr, 0xFFFB_FFFF)), inUse, pll))
  {
    hide Basic, Reduced, Writable, And, HeldOn;
    HeldAtMostHse(cr, inUse, pll);
    BasicWord(cr, HeldOn(cr, inUse, pll));
  }

  lemma HseStep(cr: bv32, inUse: bv32, pll: bv32)
    requires Basic(cr) && inUse != 2
    ensures Switches(Held(cr, Writable(Or(cr, 0x0001_0000)), inUse, pll)) == 0x0001_0001
  {
    hide Basic, Switches, Writable, Or, HeldOn;
    HeldAtMostHse(cr, inUse, pll);
    HseWord(cr, HeldOn(cr, inUse, pll));
  }

  lemma PllStep(cr: bv32, inUse: bv32, pll: bv32)
    requires Switches(cr) == 0x0001_0001 && inUse != 2
    ensures Switches(Held(cr, Writable(Or(cr, 0x0100_0000)), inUse, pll)) == 0x0101_0001
  {
    hide Switches, Writable, Or, HeldOn;
    HeldAtMostHse(cr, inUse, pll);
    PllWord(cr, HeldOn(cr, inUse, pll));
  }

  lemma PllOnStep(cr: bv32, inUse: bv32, pll: bv32)
    ensures PllOn(Held(cr, Writable(Or(cr, 0x0100_0000)), inUse, pll))
  {
    hide PllOn, Writable, Or, HeldOn;
    PllSwitched(cr, HeldOn(cr, inUse, pll));
  }

  lemma HseOnlyMeansPllOff(cr: bv32)
    ensures Switches(cr) == 0x0001_0001 ==> !PllOn(cr)
  {}

  lemma SettingsReset(c: bv32)
    ensures Decoded(Settable(And(c, 0xF8FF_0000)))
         == RESET.(pll := Decoded(c).pll, rest := Decoded(c).rest & 0x0040_0000)
  {}

  lemma PllSettingsReset(c: bv32)
    ensures Decoded(Settable(And(c, 0xFF80_FFFF)))
         == Decoded(c).(pll := 0, rest := Decoded(c).rest & 0x0700_C000)
  {}

  lemma NoDivision(c: bv32)
    ensures Decoded(Settable(Or(c, 0))) == Decoded(c)
  {}

  lemma HalvedApb1(c: bv32)
    requires Decoded(c).ppre1 == 0
    ensures Decoded(Settable(Or(c, 0x400))) == Decoded(c).(ppre1 := 4)
  {}

  lemma PllCleared(c: bv32)
    ensures Decoded(Settable(And(c, 0xFFC0_FFFF))) == Decoded(c).(pll := 0)
  {}

  lemma PllSet(c: bv32)
    requires Decoded(c).pll == 0
    ensures Decoded(Settable(Or(c, 0x001D_0000))) == Decoded(c).(pll := 0x1D)
  {}

  lemma SwitchCleared(c: bv32)
    ensures Decoded(Settable(And(c, 0xFFFF_FFFC))) == Decoded(c).(sw := 0)
  {}

  lemma SwitchSet(c: bv32)
    requires Decoded(c).sw == 0
    ensures Decoded(Settable(Or(c, 0x2))) == Decoded(c).(sw := 2)
  {}

  lemma TwoWaitStates(a: bv32)
    ensures Latency(Or(And(Or(a, 0x10), 0xFFFF_FFFC), 0x2)) == 2
    ensures Prefetching(Or(And(Or(a, 0x10), 0xFFFF_FFFC), 0x2))
  {}

  // ----- Frequencies -----

  /** Divider of the AHB clock for each code of HPRE, as the header's constants name it. */
  function AhbDivisor(hpre: bv32): (r: nat)
    ensures r > 0
  {
    match hpre
    case 0x8 => 2
    case 0x9 => 4
    case 0xA => 8
    case 0xB => 16
    case 0xC => 64
    case 0xD => 128
    case 0xE => 256
    case 0xF => 512
    case _ => 1
  }

  function PllInput(pll: bv32, hsi: nat, hse: nat): nat {
    if pll & 1 == 0 then hsi / 2 else if pll & 2 == 0 then hse else hse / 2
  }

  function PllCode(pll: bv32): (code: bv32)
    ensures code < 16
  {
    (pll >> 2) & 0xF
  }

  /** The factor for each code of PLLMUL, as the header's constants name it; code 0xF has no name. */
  function NamedFactor(code: bv32): Option<nat> {
    match code
    case 0x0 => Some(2)
    case 0x1 => Some(3)
    case 0x2 => Some(4)
    case 0x3 => Some(5)
    case 0x4 => Some(6)
    case 0x5 => Some(7)
    case 0x6 => Some(8)
    case 0x7 => Some(9)
    case 0x8 => Some(10)
    case 0x9 => Some(11)
    case 0xA => Some(12)
    case 0xB => Some(13)
    case 0xC => Some(14)
    case 0xD => Some(15)
    case 0xE => Some(16)
    case _ => None
  }

  /** The core clock for the clock in use `sws` and the settings `c`, as the header's names give it. */
  function CoreClock(sws: bv32, c: Settings, hsi: nat, hse: nat): Option<nat> {
    match sws
    case 1 => Some(hse / AhbDivisor(c.hpre))
    case 2 => (
      match NamedFactor(PllCode(c.pll))
      case Some(n) => Some(PllInput(c.pll, hsi, hse) * n / AhbDivisor(c.hpre))
      case None => None)
    case _ => Some(hsi / AhbDivisor(c.hpre))
  }

  /** The fields of the PLL in the CFGR word: bit 16 chooses HSE, bit 17 halves it, bits 21:18 are the
      code of the factor. */
  lemma PllWords(cfgr: bv32, hsi: nat, hse: nat)
    ensures PllInput(Decoded(cfgr).pll, hsi, hse)
         == InputOf(cfgr, hsi, hse)
  {
    PllInputBits(cfgr);
  }

  lemma PllInputBits(cfgr: bv32)
    ensures (Decoded(cfgr).pll & 1 == 0) == (cfgr & 0x0001_0000 == 0)
    ensures (Decoded(cfgr).pll & 2 == 0) == (cfgr & 0x0002_0000 == 0)
  {}

  lemma FactorWord(cfgr: bv32)
    ensures PllCode(Decoded(cfgr).pll) == (cfgr >> 18) & 0xF
    ensures Decoded(cfgr).hpre == (cfgr >> 4) & 0xF
  {}

  function InputOf(cfgr: bv32, hsi: nat, hse: nat): nat {
    if cfgr & 0x0001_0000 == 0 then hsi / 2 else if cfgr & 0x0002_0000 == 0 then hse else hse / 2
  }

  function FactorOf(cfgr: bv32): nat {
    ((cfgr >> 18) & 0xF) as nat + 2
  }

  function DivisorOf(cfgr: bv32): (r: nat)
    ensures r > 0
  {
    AhbDivisor((cfgr >> 4) & 0xF)
  }

  /** The read-back, from the CFGR word and the clock in use. */
  function ReadBackOf(sws: bv32, cfgr: bv32, hsi: nat, hse: nat): nat {
    (if sws == 1 then hse else if sws == 2 then InputOf(cfgr, hsi, hse) * FactorOf(cfgr) else hsi) / DivisorOf(cfgr)
  }

  lemma ReadBackOnWord(sws: bv32, cfgr: bv32, hsi: nat, hse: nat)
    ensures ReadBack(sws, Decoded(cfgr), hsi, hse) == ReadBackOf(sws, cfgr, hsi, hse)
  {
    hide Decoded, PllInput, PllCode, AhbDivisor;
    PllWords(cfgr, hsi, hse);
    FactorWord(cfgr);
  }

  /** The factor the read-back takes: two more than the code. */
  function PllFactor(pll: bv32): nat {
    PllCode(pll) as nat + 2
  }

  function SystemClock(sws: bv32, pll: bv32, hsi: nat, hse: nat): nat {
    match sws
    case 1 => hse
    case 2 => PllInput(pll, hsi, hse) * PllFactor(pll)
    case _ => hsi
  }

  /** What the read-back gives. */
  function ReadBack(sws: bv32, c: Settings, hsi: nat, hse: nat): nat {
    SystemClock(sws, c.pll, hsi, hse) / AhbDivisor(c.hpre)
  }

  lemma FactorNamed(pll: bv32)
    ensures NamedFactor(PllCode(pll)) == if PllCode(pll) == 0xF then None else Some(PllFactor(pll))
  {
    hide PllCode;
    CodeNamed(PllCode(pll));
  }

  lemma CodeNamed(code: bv32)
    requires code < 16
    ensures NamedFactor(code) == if code == 0xF then None else Some(code as nat + 2)
  {
    var n := code as nat;
    assert code == n as bv32;
    if n < 4 {
      assert n == 0 || n == 1 || n == 2 || n == 3;
    } else if n < 8 {
      assert n == 4 || n == 5 || n == 6 || n == 7;
    } else if n < 12 {
      assert n == 8 || n == 9 || n == 10 || n == 11;
    } else {
      assert n == 12 || n == 13 || n == 14 || n == 15;
    }
  }

  /** The read-back is the named frequency, unless the PLL is in use with the factor that has no name. */
  lemma ReadBackIsNamed(sws: bv32, c: Settings, hsi: nat, hse: nat)
    ensures CoreClock(sws, c, hsi, hse) == Some(ReadBack(sws, c, hsi, hse))
       <==> sws != 2 || PllCode(c.pll) != 0xF
  {
    hide NamedFactor, PllCode, PllInput, AhbDivisor, PllFactor;
    FactorNamed(c.pll);
  }

  /** With code 0xF the read-back multiplies by 17, a factor no code is named for. */
  lemma UnnamedFactor(c: Settings, hsi: nat, hse: nat)
    requires PllCode(c.pll) == 0xF
    ensures ReadBack(2, c, hsi, hse) == PllInput(c.pll, hsi, hse) * 17 / AhbDivisor(c.hpre)
    ensures CoreClock(2, c, hsi, hse) == None
    ensures forall code: bv32 | code < 16 :: NamedFactor(code) != Some(17)
  {
    hide PllCode, PllInput, AhbDivisor;
    forall code: bv32 | code < 16 ensures NamedFactor(code) != Some(17) {}
  }

  function Pow2(n: nat): (r: nat)
    ensures r > 0
  {
    if n == 0 then 1 else 2 * Pow2(n - 1)
  }

  const AHB_PRESC_TABLE: seq<nat> := [0, 0, 0, 0, 0, 0, 0, 0, 1, 2, 3, 4, 6, 7, 8, 9]

  /** Shifting by the table's entry divides by the divisor of the code. */
  lemma TableMatchesDivisors(hpre: bv32)
    requires hpre < 16
    ensures Pow2(AHB_PRESC_TABLE[hpre as nat]) == AhbDivisor(hpre)
  {
    assert Pow2(4) == 16;
    assert Pow2(6) == 64;
    assert Pow2(8) == 256;
  }

  // ----- The read-back's masks and shifts, on a word read from CFGR -----

  function Source(v: bv32): bv32 {
    v & 0xC
  }

  function Multiplication(v: bv32): bv32 {
    ((v & 0x003C_0000) >> 18) + 2
  }

  predicate FromHse(v: bv32) {
    v & 0x0001_0000 != 0
  }

  predicate Halved(v: bv32) {
    v & 0x0002_0000 != 0
  }

  function Prescaler(v: bv32): (r: bv32)
    ensures r < 16
  {
    (v & 0xF0) >> 4
  }

  lemma SourceRead(cfgr: bv32, bits: bv32)
    ensures (Source(WithStatus(cfgr, bits)) == 0) == (Sws(bits) == 0)
    ensures (Source(WithStatus(cfgr, bits)) == 4) == (Sws(bits) == 1)
    ensures (Source(WithStatus(cfgr, bits)) == 8) == (Sws(bits) == 2)
  {}

  lemma MultiplicationRead(cfgr: bv32, bits: bv32)
    ensures Multiplication(WithStatus(cfgr, bits)) == ((Decoded(cfgr).pll >> 2) & 0xF) + 2
  {}

  lemma FactorRead(pll: bv32)
    ensures (((pll >> 2) & 0xF) + 2) as nat == PllFactor(pll) <= 17
  {}

  lemma InputRead(cfgr: bv32, bits: bv32)
    ensures FromHse(WithStatus(cfgr, bits)) == (Decoded(cfgr).pll & 1 != 0)
    ensures Halved(WithStatus(cfgr, bits)) == (Decoded(cfgr).pll & 2 != 0)
  {}

  lemma PrescalerRead(cfgr: bv32, bits: bv32)
    ensures Prescaler(WithStatus(cfgr, bits)) == Decoded(cfgr).hpre
  {}

  /** No product of the read-back leaves 32 bits. */
  lemma NoWrap(f: nat, n: nat)
    requires n <= 17 && 17 * f < 0x1_0000_0000
    ensures (f * n) % 0x1_0000_0000 == f * n
  {
    assert f * n <= f * 17;
    Mod(f * n);
  }

  lemma Mod(p: nat)
    requires p < 0x1_0000_0000
    ensures p % 0x1_0000_0000 == p
  {}

  lemma ClockAfterBringUp(hsi: nat, hse: nat)
    ensures ReadBack(2, AT_72_MHZ, hsi, hse) == 9 * hse
    ensures ReadBack(0, RESET, hsi, hse) == hsi
  {
    assert PllInput(0x1D, hsi, hse) == hse;
  }

  class Rcc {
    var cr: bv32
    var cfgr: bv32
    var cir: bv32
    var acr: bv32
    var coreClock: nat
    const hsi: nat
    const hse: nat
    const ready: nat -> bv32
    const follows: nat -> bool
    var crReads: nat
    var accesses: nat
    var status: bv32
    ghost var locked: bool
    ghost var trail: seq<Snapshot>

    ghost function Now(): Snapshot
      reads this
    {
      Snapshot(cr, cfgr, acr, Sws(status), locked)
    }

    /** The trail leads up to the present state. */
    ghost predicate Valid()
      reads this
    {
      |trail| > 0 && trail[|trail| - 1] == Now()
    }

    /** The states since are on the trail, and are as safe as those before. */
    twostate predicate StaysGood()
      reads this
    {
      old(trail) <= trail && (GoodTrail(old(trail)) ==> GoodTrail(trail))
    }

    /** The clock in use after `n` accesses, when none of them selects another clock. */
    ghost function InUseAfter(n: nat): bv32
      reads this
    {
      InUse(follows, accesses, n, Decoded(cfgr).sw, Sws(status))
    }

    /** HSI is selected, and the PLL is not in use. */
    ghost predicate Quiet()
      reads this
    {
      Decoded(cfgr).sw == 0 && Sws(status) != 2
    }

    /** HSI is in use, and no other clock is selected. */
    predicate OnHsi()
      reads this
    {
      Sws(status) == 0 && Decoded(cfgr).sw == 0
    }

    /** SystemInit has taken all settings back. */
    ghost predicate ClocksReset()
      reads this
    {
      Decoded(cfgr) == RESET && Quiet() && Basic(cr) && !PllOn(cr)
    }

    /** The core runs on the PLL at nine times the oscillator. */
    ghost predicate RunningAt72()
      reads this
    {
      && Decoded(cfgr) == AT_72_MHZ && Sws(status) == 2 && Switches(cr) == 0x0101_0001
      && PllOn(cr) && locked && Latency(acr) == 2 && Prefetching(acr)
      && WordAt72(cfgr) && FlashWord(acr)
    }

    /** HSI is selected, and HSE on beside it. */
    ghost predicate HseOnly()
      reads this
    {
      Quiet() && Switches(cr) == 0x0001_0001 && !PllOn(cr)
    }

    /** The oscillator did not start: HSI is selected and the PLL off. */
    ghost predicate HseFailed()
      reads this
    {
      Decoded(cfgr) == RESET && Quiet() && Switches(cr) == 0x0001_0001 && !PllOn(cr) && WordReset(cfgr)
    }

    lemma QuietSafe()
      ensures Quiet() ==> Safe(Now())
    {}

    /** Once the clock selected is in use, SWS tells what stays in use. */
    lemma SettledInUse(n: nat)
      requires Sws(status) == Decoded(cfgr).sw
      ensures InUseAfter(n) == Sws(status)
    {}

    /** Reset. */
    constructor (ready: nat -> bv32, follows: nat -> bool, hsi: nat, hse: nat)
      ensures Valid() && GoodTrail(trail) && OnHsi() && crReads == accesses == 0
      ensures this.ready == ready && this.follows == follows && this.hsi == hsi && this.hse == hse
    {
      cr, cfgr, cir, acr := 0x0000_0081, 0, 0, 0x30;
      coreClock := 72_000_000;
      this.ready, this.follows, this.hsi, this.hse := ready, follows, hsi, hse;
      crReads, accesses, status := 0, 0, 0;
      locked := false;
      trail := [Snapshot(0x0000_0081, 0, 0x30, 0, false)];
    }

    // ----- Register accesses -----

    /** Before an access takes effect the hardware may have brought the clock selected into use. */
    method Tick()
      requires Valid()
      modifies this`accesses, this`status, this`trail
      ensures Valid() && accesses == old(accesses) + 1 && Sws(status) == old(InUseAfter(1))
      ensures old(trail) <= trail && (GoodTrail(trail) <==> GoodTrail(old(trail)))
    {
      hide GoodTrail, PllOn, Decoded, Latency, StatusFor, Sws;
      StatusOfSelected(cfgr);
      assert follows(accesses) <==> exists k :: accesses <= k < accesses + 1 && follows(k);
      if follows(accesses) {
        status := StatusFor(cfgr);
      }
      accesses := accesses + 1;
      GoodLast();
      GoodAppend(trail, Now());
      trail := trail + [Now()];
    }

    /** The last state of a good trail is safe. */
    twostate lemma GoodLast()
      requires old(Valid())
      ensures GoodTrail(old(trail)) ==> Safe(old(Now()))
    {
      hide Safe, PllStable;
    }

    method ReadCr() returns (v: bv32)
      requires Valid()
      modifies this`crReads, this`accesses, this`status, this`locked, this`trail
      ensures Valid() && StaysGood() && crReads == old(crReads) + 1
      ensures accesses == old(accesses) + 1 && Sws(status) == old(InUseAfter(1))
      ensures v == WithReady(cr, ready(old(crReads)))
      ensures locked == (old(locked) || (PllOn(cr) && ShowsPll(ready(old(crReads)))))
    {
      hide GoodTrail, PllOn, PllReady, ShowsPll, Decoded, Latency, WithReady, Sws, InUse;
      Tick();
      label L:
      v := WithReady(cr, ready(crReads));
      crReads := crReads + 1;
      locked := locked || (PllOn(cr) && ShowsPll(ready(crReads - 1)));
      GoodLast@L();
      GoodAppend(trail, Now());
      trail := trail + [Now()];
    }

    method ReadCfgr() returns (v: bv32)
      requires Valid()
      modifies this`accesses, this`status, this`trail
      ensures Valid() && StaysGood()
      ensures accesses == old(accesses) + 1 && Sws(status) == old(InUseAfter(1))
      ensures v == WithStatus(cfgr, status)
    {
      hide GoodTrail, PllOn, Decoded, WithStatus, Sws, InUse;
      Tick();
      v := WithStatus(cfgr, status);
    }

    method WriteCr(v: bv32)
      requires Valid()
      modifies this`cr, this`accesses, this`status, this`locked, this`trail
      ensures Valid() && old(trail) <= trail
      ensures accesses == old(accesses) + 1 && Sws(status) == old(InUseAfter(1))
      ensures cr == Held(old(cr), Writable(v), Sws(status), Decoded(cfgr).pll) && locked == (old(locked) && PllOn(cr))
      ensures GoodTrail(trail) <==> GoodTrail(old(trail)) && Safe(Now())
    {
      hide GoodTrail, PllOn, Decoded, Latency, Writable, Held, Sws, InUse;
      Tick();
      cr := Held(cr, Writable(v), Sws(status), Decoded(cfgr).pll);
      locked := locked && PllOn(cr);
      GoodAppend(trail, Now());
      trail := trail + [Now()];
    }

    method WriteCfgr(v: bv32)
      requires Valid()
      modifies this`cfgr, this`accesses, this`status, this`trail
      ensures Valid() && old(trail) <= trail
      ensures accesses == old(accesses) + 1 && Sws(status) == old(InUseAfter(1))
      ensures cfgr == Settable(v)
      ensures GoodTrail(trail) <==>
        GoodTrail(old(trail)) && Safe(Now()) && (Decoded(cfgr).pll != Decoded(old(cfgr)).pll ==> !PllOn(cr))
    {
      hide GoodTrail, PllOn, Decoded, Latency, Settable, Sws, InUse;
      Tick();
      cfgr := Settable(v);
      GoodAppend(trail, Now());
      trail := trail + [Now()];
    }

    method WriteAcr(v: bv32)
      requires Valid()
      modifies this`acr, this`accesses, this`status, this`trail
      ensures Valid() && old(trail) <= trail
      ensures accesses == old(accesses) + 1 && Sws(status) == old(InUseAfter(1))
      ensures acr == v
      ensures GoodTrail(trail) <==> GoodTrail(old(trail)) && Safe(Now())
    {
      hide GoodTrail, PllOn, Decoded, Latency, Sws, InUse;
      Tick();
      acr := v;
      GoodAppend(trail, Now());
      trail := trail + [Now()];
    }

    // ----- Read, change, write back -----

    method SetInCr(m: bv32)
      requires Valid()
      modifies this`cr, this`crReads, this`accesses, this`status, this`locked, this`trail
      ensures Valid() && old(trail) <= trail && crReads == old(crReads) + 1
      ensures accesses == old(accesses) + 2 && Sws(status) == old(InUseAfter(2))
      ensures cr == Held(old(cr), Writable(Or(old(cr), m)), Sws(status), Decoded(cfgr).pll)
      ensures old(locked) && PllOn(cr) ==> locked
      ensures GoodTrail(old(trail)) && Safe(Now()) ==> GoodTrail(trail)
    {
      hide GoodTrail, Or, And, PllOn, PllReady, ShowsPll, Decoded, Latency, Writable, WithReady, Held, Sws, InUse, Safe;
      InUseSplit(follows, accesses, 1, 1, Decoded(cfgr).sw, Sws(status));
      var v := ReadCr();
      SetBesideReady(cr, ready(crReads - 1), m);
      WriteCr(Or(v, m));
    }

    method KeepInCr(m: bv32)
      requires Valid()
      modifies this`cr, this`crReads, this`accesses, this`status, this`locked, this`trail
      ensures Valid() && old(trail) <= trail && crReads == old(crReads) + 1
      ensures accesses == old(accesses) + 2 && Sws(status) == old(InUseAfter(2))
      ensures cr == Held(old(cr), Writable(And(old(cr), m)), Sws(status), Decoded(cfgr).pll)
      ensures GoodTrail(old(trail)) && Safe(Now()) ==> GoodTrail(trail)
    {
      hide GoodTrail, Or, And, PllOn, PllReady, ShowsPll, Decoded, Latency, Writable, WithReady, Held, Sws, InUse, Safe;
      InUseSplit(follows, accesses, 1, 1, Decoded(cfgr).sw, Sws(status));
      var v := ReadCr();
      KeepBesideReady(cr, ready(crReads - 1), m);
      WriteCr(And(v, m));
    }

    method SetInCfgr(m: bv32)
      requires Valid()
      modifies this`cfgr, this`accesses, this`status, this`trail
      ensures Valid() && old(trail) <= trail
      ensures accesses == old(accesses) + 2 && Sws(status) == old(InUseAfter(2))
      ensures cfgr == Settable(Or(old(cfgr), m))
      ensures GoodTrail(old(trail)) && Safe(Now()) && (Decoded(cfgr).pll != Decoded(old(cfgr)).pll ==> !PllOn(cr)) ==>
        GoodTrail(trail)
    {
      hide GoodTrail, Or, And, PllOn, PllReady, ShowsPll, Decoded, Latency, Settable, WithStatus, Sws, InUse, Safe;
      InUseSplit(follows, accesses, 1, 1, Decoded(cfgr).sw, Sws(status));
      var v := ReadCfgr();
      SetBesideStatus(cfgr, status, m);
      WriteCfgr(Or(v, m));
    }

    method KeepInCfgr(m: bv32)
      requires Valid()
      modifies this`cfgr, this`accesses, this`status, this`trail
      ensures Valid() && old(trail) <= trail
      ensures accesses == old(accesses) + 2 && Sws(status) == old(InUseAfter(2))
      ensures cfgr == Settable(And(old(cfgr), m))
      ensures GoodTrail(old(trail)) && Safe(Now()) && (Decoded(cfgr).pll != Decoded(old(cfgr)).pll ==> !PllOn(cr)) ==>
        GoodTrail(trail)
      ensures GoodTrail(trail) ==> Safe(Now())
    {
      hide GoodTrail, Or, And, PllOn, PllReady, ShowsPll, Decoded, Latency, Settable, WithStatus, Sws, InUse, Safe;
      InUseSplit(follows, accesses, 1, 1, Decoded(cfgr).sw, Sws(status));
      var v := ReadCfgr();
      KeepBesideStatus(cfgr, status, m);
      WriteCfgr(And(v, m));
    }

    // ----- Bring-up -----

    /** HSI on and selected. Only the PLL being in use when CFGR is written makes this unsafe. */
    method SelectHsi()
      requires Valid()
      modifies this`cr, this`cfgr, this`crReads, this`accesses, this`status, this`locked, this`trail
      ensures Valid() && old(trail) <= trail && crReads == old(crReads) + 1
      ensures HsiOn(cr) && Sws(status) == old(InUseAfter(4))
      ensures Decoded(cfgr) == RESET.(pll := Decoded(cfgr).pll, rest := Decoded(cfgr).rest & 0x0040_0000)
      ensures GoodTrail(trail) ==> Sws(status) != 2
      ensures GoodTrail(old(trail)) && Sws(status) != 2 ==> GoodTrail(trail)
    {
      hide GoodTrail, Or, And, Sws, PllOn, PllReady, ShowsPll, Decoded, Latency, Settable, Writable, Held, HsiOn, InUse;
      InUseSplit(follows, accesses, 2, 2, Decoded(cfgr).sw, Sws(status));
      SwitchHsiOn();
      SettingsReset(cfgr);
      KeptTwice(Decoded(cfgr).rest, 0x0040_0000);
      KeepInCfgr(0xF8FF_0000);
    }

    method SwitchHsiOn()
      requires Valid()
      modifies this`cr, this`crReads, this`accesses, this`status, this`locked, this`trail
      ensures Valid() && StaysGood() && crReads == old(crReads) + 1
      ensures accesses == old(accesses) + 2 && Sws(status) == old(InUseAfter(2))
      ensures HsiOn(cr)
    {
      hide GoodTrail, Or, And, Sws, PllOn, PllReady, ShowsPll, Decoded, Latency, Settable, Writable, Held, HsiOn;
      SetInCr(0x1);
      GoodLast();
      HsiStep(old(cr), Sws(status), Decoded(cfgr).pll);
    }

    /** HSE, the PLL and the clock security system off, unless they are in use. */
    method SwitchOff()
      requires Valid()
      modifies this`cr, this`crReads, this`accesses, this`status, this`locked, this`trail
      ensures Valid() && old(trail) <= trail && crReads == old(crReads) + 1
      ensures Sws(status) == old(Sws(status)) || Sws(status) == Decoded(cfgr).sw
      ensures HsiOn(old(cr)) && old(Quiet()) ==> Reduced(cr) && StaysGood()
    {
      hide GoodTrail, And, Sws, PllOn, Decoded, Writable, Held, HsiOn, Reduced, InUse, Safe;
      KeepInCr(0xFEF6_FFFF);
      QuietSafe();
      if HsiOn(old(cr)) && old(Quiet()) { ReducedStep(old(cr), Sws(status), Decoded(cfgr).pll); }
    }

    /** The bypass of HSE off. */
    method ClearBypass()
      requires Valid()
      modifies this`cr, this`crReads, this`accesses, this`status, this`locked, this`trail
      ensures Valid() && old(trail) <= trail && crReads == old(crReads) + 1
      ensures Sws(status) == old(Sws(status)) || Sws(status) == Decoded(cfgr).sw
      ensures Reduced(old(cr)) && old(Quiet()) ==> Basic(cr) && !PllOn(cr) && StaysGood()
    {
      hide GoodTrail, And, Sws, PllOn, Decoded, Writable, Held, Reduced, Basic, InUse, Safe;
      KeepInCr(0xFFFB_FFFF);
      QuietSafe();
      if Reduced(old(cr)) && old(Quiet()) { BasicStep(old(cr), Sws(status), Decoded(cfgr).pll); }
      BasicPllOff(cr);
    }

    method ResetPllSettings()
      requires Valid() && Decoded(cfgr) == RESET.(pll := Decoded(cfgr).pll, rest := Decoded(cfgr).rest & 0x0040_0000)
      modifies this`cfgr, this`accesses, this`status, this`trail
      ensures Valid() && old(trail) <= trail && Decoded(cfgr) == RESET
      ensures Sws(status) == old(Sws(status)) || Sws(status) == 0
      ensures old(Quiet()) && !PllOn(cr) ==> StaysGood()
    {
      hide GoodTrail, And, Sws, PllOn, Decoded, Settable, InUse, Safe;
      PllSettingsReset(cfgr);
      OtherBitsReset(Decoded(cfgr).rest);
      KeepInCfgr(0xFF80_FFFF);
      QuietSafe();
    }

    /** All oscillators but HSI off, then the PLL's settings taken back. */
    method SwitchOffAndReset()
      requires Valid() && Decoded(cfgr) == RESET.(pll := Decoded(cfgr).pll, rest := Decoded(cfgr).rest & 0x0040_0000)
      modifies this`cr, this`cfgr, this`crReads, this`accesses, this`status, this`locked, this`trail
      ensures Valid() && old(trail) <= trail && crReads == old(crReads) + 2 && Decoded(cfgr) == RESET
      ensures HsiOn(old(cr)) && old(Quiet()) ==> ClocksReset() && StaysGood()
      ensures old(OnHsi()) ==> OnHsi()
    {
      hide Valid, GoodTrail, Sws, PllOn, Decoded, HsiOn, Reduced, Basic, InUse, Safe;
      SwitchOff();
      ClearBypass();
      ResetPllSettings();
    }

    method ResetClocks()
      requires Valid()
      modifies this`cr, this`cfgr, this`cir, this`crReads, this`accesses, this`status, this`locked, this`trail
      ensures Valid() && old(trail) <= trail && crReads == old(crReads) + 3
      ensures Decoded(cfgr) == RESET && cir == 0x009F_0000
      ensures old(InUseAfter(4)) != 2 ==> ClocksReset() && StaysGood()
      ensures GoodTrail(trail) ==> old(InUseAfter(4)) != 2
      ensures old(OnHsi()) ==> OnHsi()
    {
      hide GoodTrail, Sws, PllOn, Decoded, HsiOn, Basic, InUse, Safe;
      SelectHsi();
      label L:
      SwitchOffAndReset();
      cir := 0x009F_0000;
      if GoodTrail(trail) { GoodPrefix(old@L(trail), trail); }
    }

    /** Polls until the oscillator is ready or the limit is reached. */
    method PollHse() returns (ghost waits: nat)
      requires Valid()
      modifies this`crReads, this`accesses, this`status, this`locked, this`trail
      ensures Valid() && StaysGood()
      ensures Sws(status) == old(Sws(status)) || Sws(status) == Decoded(cfgr).sw
      ensures 1 <= waits <= 1280 && crReads == old(crReads) + waits
      ensures forall k :: old(crReads) <= k < crReads - 1 ==> !ShowsHse(ready(k))
      ensures waits < 1280 ==> ShowsHse(ready(crReads - 1))
    {
      hide Valid, GoodTrail, PllOn, PllReady, ShowsPll, HseReady, ShowsHse, WithReady, Sws, Decoded, InUse;
      var v := ReadCr();
      HseReadyRead(cr, ready(crReads - 1));
      var counter := 1;
      while !HseReady(v) && counter != HSE_STARTUP_TIMEOUT
        invariant Valid() && StaysGood()
        invariant Sws(status) == old(Sws(status)) || Sws(status) == Decoded(cfgr).sw
        invariant 1 <= counter <= HSE_STARTUP_TIMEOUT && crReads == old(crReads) + counter
        invariant forall k :: old(crReads) <= k < crReads - 1 ==> !ShowsHse(ready(k))
        invariant HseReady(v) == ShowsHse(ready(crReads - 1))
        decreases HSE_STARTUP_TIMEOUT - counter
      {
        v := ReadCr();
        HseReadyRead(cr, ready(crReads - 1));
        counter := counter + 1;
      }
      waits := counter;
    }

    method SwitchHseOn()
      requires Valid()
      modifies this`cr, this`crReads, this`accesses, this`status, this`locked, this`trail
      ensures Valid() && old(trail) <= trail && crReads == old(crReads) + 1
      ensures Sws(status) == old(Sws(status)) || Sws(status) == Decoded(cfgr).sw
      ensures old(Quiet()) && Basic(old(cr)) ==> Switches(cr) == 0x0001_0001 && !PllOn(cr) && StaysGood()
    {
      hide GoodTrail, Or, Switches, PllOn, Decoded, Writable, Held, Sws, Basic, InUse, Safe;
      SetInCr(0x0001_0000);
      QuietSafe();
      HseOnlyMeansPllOff(cr);
      if old(Quiet()) && Basic(old(cr)) { HseStep(old(cr), Sws(status), Decoded(cfgr).pll); }
    }

    /** `waits` reads poll the oscillator, one more decides. */
    method StartHse() returns (started: bool, ghost waits: nat)
      requires Valid()
      modifies this`cr, this`crReads, this`accesses, this`status, this`locked, this`trail
      ensures Valid() && old(trail) <= trail
      ensures 1 <= waits <= 1280 && crReads == old(crReads) + waits + 2
      ensures forall k :: old(crReads) < k < old(crReads) + waits ==> !ShowsHse(ready(k))
      ensures waits < 1280 ==> ShowsHse(ready(old(crReads) + waits))
      ensures started == ShowsHse(ready(old(crReads) + waits + 1))
      ensures old(Quiet()) && Basic(old(cr)) ==>
        Quiet() && Switches(cr) == 0x0001_0001 && !PllOn(cr) && StaysGood()
      ensures old(OnHsi()) ==> OnHsi()
    {
      hide Valid, GoodTrail, Switches, PllOn, PllReady, ShowsPll, HseReady, ShowsHse, Decoded, WithReady, Sws, Basic;
      SwitchHseOn();
      waits := PollHse();
      var v := ReadCr();
      HseReadyRead(cr, ready(crReads - 1));
      started := HseReady(v);
    }

    /** Polls until the PLL is ready. */
    method AwaitPll()
      requires Valid() && PllOn(cr) && LocksAfter(ready, crReads)
      modifies this`crReads, this`accesses, this`status, this`locked, this`trail
      ensures Valid() && StaysGood() && locked
      ensures crReads > old(crReads) && ShowsPll(ready(crReads - 1)) && ready(crReads - 1) & 0x0200_0000 != 0
      ensures Sws(status) == old(Sws(status)) || Sws(status) == Decoded(cfgr).sw
    {
      hide Valid, GoodTrail, PllOn, PllReady, ShowsPll, WithReady, Sws, Decoded, InUse;
      ghost var j :| crReads <= j && ShowsPll(ready(j));
      var v := ReadCr();
      PllReadyRead(cr, ready(crReads - 1));
      while !PllReady(v)
        invariant Valid() && StaysGood()
        invariant Sws(status) == old(Sws(status)) || Sws(status) == Decoded(cfgr).sw
        invariant old(crReads) < crReads <= j + 1 && PllReady(v) == ShowsPll(ready(crReads - 1))
        invariant PllReady(v) ==> locked
        decreases j + 1 - crReads
      {
        v := ReadCr();
        PllReadyRead(cr, ready(crReads - 1));
      }
      PllBit(ready(crReads - 1));
    }

    /** Polls until the PLL is the clock in use. */
    method AwaitSwitch()
      requires Valid() && Decoded(cfgr).sw == 2 && FollowsAfter(follows, accesses)
      modifies this`accesses, this`status, this`trail
      ensures Valid() && StaysGood() && Sws(status) == 2
    {
      hide Valid, GoodTrail, Sws, WithStatus, Decoded, Source;
      ghost var j :| accesses <= j && follows(j);
      var v := ReadCfgr();
      SourceRead(cfgr, status);
      while Source(v) != 0x8
        invariant Valid() && StaysGood()
        invariant (Source(v) == 0x8) == (Sws(status) == 2) && (Sws(status) == 2 || accesses <= j)
        decreases j + 1 - accesses
      {
        v := ReadCfgr();
        SourceRead(cfgr, status);
      }
    }

    /** Two wait states before the clock is raised. */
    method ConfigureFlash()
      requires Valid()
      modifies this`acr, this`accesses, this`status, this`trail
      ensures Valid() && old(trail) <= trail && Latency(acr) == 2 && Prefetching(acr)
      ensures old(Quiet()) ==> Quiet() && StaysGood()
    {
      hide GoodTrail, Or, And, PllOn, Decoded, Latency, Prefetching, Sws;
      WriteAcr(Or(acr, 0x10));
      WriteAcr(And(acr, 0xFFFF_FFFC));
      WriteAcr(Or(acr, 0x2));
      TwoWaitStates(old(acr));
    }

    /** APB1 at half the clock. */
    method ConfigureBuses()
      requires Valid() && Decoded(cfgr) == RESET
      modifies this`cfgr, this`accesses, this`status, this`trail
      ensures Valid() && old(trail) <= trail && Decoded(cfgr) == RESET.(ppre1 := 4)
      ensures old(Quiet()) ==> Quiet() && StaysGood()
    {
      hide GoodTrail, Or, And, PllOn, Decoded, Latency, Settable, Sws;
      NoDivision(cfgr);
      SetInCfgr(0x0);
      NoDivision(cfgr);
      SetInCfgr(0x0);
      HalvedApb1(cfgr);
      SetInCfgr(0x400);
    }

    /** Nine times the oscillator, while the PLL is off. */
    method ConfigurePll()
      requires Valid() && Decoded(cfgr) == RESET.(ppre1 := 4)
      modifies this`cfgr, this`accesses, this`status, this`trail
      ensures Valid() && old(trail) <= trail && Decoded(cfgr) == AT_72_MHZ.(sw := 0)
      ensures old(Quiet()) && !PllOn(cr) ==> Quiet() && StaysGood()
    {
      hide GoodTrail, Or, And, PllOn, Decoded, Latency, Settable, Sws;
      PllCleared(cfgr);
      KeepInCfgr(0xFFC0_FFFF);
      PllSet(cfgr);
      SetInCfgr(0x001D_0000);
    }

    method StartPll()
      requires Valid() && forall k :: LocksAfter(ready, k)
      modifies this`cr, this`crReads, this`accesses, this`status, this`locked, this`trail
      ensures Valid() && old(trail) <= trail && PllOn(cr) && locked
      ensures crReads > old(crReads) && ShowsPll(ready(crReads - 1)) && ready(crReads - 1) & 0x0200_0000 != 0
      ensures old(Quiet()) && Switches(old(cr)) == 0x0001_0001 ==>
        Quiet() && Switches(cr) == 0x0101_0001 && StaysGood()
    {
      hide GoodTrail, Or, And, Switches, PllOn, PllReady, ShowsPll, HseReady, ShowsHse, Decoded, Latency, Writable,
        WithReady, Held, Sws, LocksAfter;
      SetInCr(0x0100_0000);
      PllOnStep(old(cr), Sws(status), Decoded(cfgr).pll);
      if old(Quiet()) && Switches(old(cr)) == 0x0001_0001 { PllStep(old(cr), Sws(status), Decoded(cfgr).pll); }
      AwaitPll();
    }

    method SwitchToPll()
      requires Valid() && Decoded(cfgr) == AT_72_MHZ.(sw := 0)
      requires Latency(acr) == 2 && PllOn(cr) && locked
      requires forall k :: FollowsAfter(follows, k)
      modifies this`cfgr, this`accesses, this`status, this`trail
      ensures Valid() && StaysGood() && Decoded(cfgr) == AT_72_MHZ && Sws(status) == 2
    {
      hide GoodTrail, Or, And, PllOn, Decoded, Latency, Settable, Sws, WithStatus, FollowsAfter;
      SwitchCleared(cfgr);
      KeepInCfgr(0xFFFF_FFFC);
      SwitchSet(cfgr);
      SetInCfgr(0x2);
      AwaitSwitch();
    }

    /** What follows once the oscillator is ready. */
    method RunFromPll()
      requires Valid() && Decoded(cfgr) == RESET
      requires forall k :: LocksAfter(ready, k)
      requires forall k :: FollowsAfter(follows, k)
      modifies this`cr, this`cfgr, this`acr, this`crReads, this`accesses, this`status, this`locked, this`trail
      ensures Valid() && old(trail) <= trail && crReads > 0 && ShowsPll(ready(crReads - 1))
      ensures old(HseOnly()) ==> RunningAt72() && StaysGood()
    {
      hide Valid, GoodTrail, Decoded, Latency, Prefetching, PllOn, ShowsPll, Switches, Sws, LocksAfter, FollowsAfter,
        WordAt72, WordReset, FlashWord;
      ConfigureFlash();
      ConfigureBuses();
      ConfigurePll();
      StartPll();
      SwitchToPll();
      WordsDecoded(cfgr);
      FlashDecoded(acr);
    }

    method SetSysClockTo72() returns (started: bool, ghost waits: nat)
      requires Valid() && Decoded(cfgr) == RESET && Answers(ready, follows)
      modifies this`cr, this`cfgr, this`acr, this`crReads, this`accesses, this`status, this`locked, this`trail
      ensures Valid() && old(trail) <= trail
      ensures 1 <= waits <= 1280
      ensures forall k :: old(crReads) < k < old(crReads) + waits ==> !ShowsHse(ready(k))
      ensures waits < 1280 ==> ShowsHse(ready(old(crReads) + waits))
      ensures started == ShowsHse(ready(old(crReads) + waits + 1))
      ensures started ==> crReads > 0 && ShowsPll(ready(crReads - 1))
      ensures old(ClocksReset()) ==>
        StaysGood() && if started then RunningAt72() else HseFailed() && acr == old(acr)
      ensures !started && old(OnHsi()) ==> OnHsi()
    {
      hide Valid, GoodTrail, Decoded, PllOn, HseReady, ShowsHse, ShowsPll, Switches, Sws, LocksAfter, FollowsAfter,
        Basic, RunningAt72, WordReset, Answers;
      started, waits := StartHse();
      WordsDecoded(cfgr);
      if started {
        Answered(ready, follows, old(crReads) + waits + 1);
        RunFromPll();
      }
    }

    /** Every state on the way is as safe as those before exactly when the PLL is not the clock in use
        by the time CFGR is first written. The core then ends on the PLL at nine times the oscillator,
        or, when the oscillator's last read shows it is not ready, with HSI selected and the PLL off. */
    method SystemInit() returns (ghost started: bool, ghost waits: nat)
      requires Valid() && Answers(ready, follows)
      modifies this`cr, this`cfgr, this`cir, this`acr, this`crReads, this`accesses, this`status,
        this`locked, this`trail
      ensures Valid() && old(trail) <= trail && cir == 0x009F_0000
      ensures 1 <= waits <= 1280
      ensures forall k :: old(crReads) + 3 < k < old(crReads) + 3 + waits ==> !ShowsHse(ready(k))
      ensures waits < 1280 ==> ShowsHse(ready(old(crReads) + 3 + waits))
      ensures started == ShowsHse(ready(old(crReads) + 4 + waits))
      ensures started ==> crReads > 0 && ShowsPll(ready(crReads - 1))
      ensures GoodTrail(old(trail)) ==> (GoodTrail(trail) <==> old(InUseAfter(4)) != 2)
      ensures old(InUseAfter(4)) != 2 ==> if started then RunningAt72() else HseFailed() && acr == old(acr)
      ensures !started && old(OnHsi()) ==> OnHsi()
    {
      hide Valid, GoodTrail, Decoded, HseReady, ShowsHse, Sws, ClocksReset, RunningAt72, HseFailed, InUse, Answers;
      ResetClocks();
      label L:
      started, waits := SetSysClockTo72();
      if GoodTrail(trail) { GoodPrefix(old@L(trail), trail); }
    }

    /** From reset, a second SystemInit is safe exactly when the first did not start the oscillator. */
    method SystemInitAgain() returns (ghost started: bool, ghost waits: nat)
      requires Valid() && GoodTrail(trail) && OnHsi() && Answers(ready, follows)
      modifies this`cr, this`cfgr, this`cir, this`acr, this`crReads, this`accesses, this`status,
        this`locked, this`trail
      ensures Valid() && old(trail) <= trail
      ensures started == ShowsHse(ready(old(crReads) + 4 + waits))
      ensures GoodTrail(trail) <==> !started
    {
      hide Valid, GoodTrail, Decoded, HseReady, ShowsHse, Sws, HseFailed, Answers, Switches, PllOn, Latency,
        Prefetching;
      started, waits := SystemInit();
      SettledInUse(4);
      ghost var again, more := SystemInit();
    }

    // ----- Read-back -----

    method PllClock() returns (f: nat)
      requires Valid() && 17 * hsi < 0x1_0000_0000 && 17 * hse < 0x1_0000_0000
      modifies this`accesses, this`status, this`trail
      ensures Valid() && StaysGood()
      ensures f == PllInput(Decoded(cfgr).pll, hsi, hse) * PllFactor(Decoded(cfgr).pll)
    {
      hide Valid, GoodTrail, InUse, WithStatus, Decoded, Multiplication, FromHse, Halved, PllFactor;
      var v := ReadCfgr();
      MultiplicationRead(cfgr, status);
      var pllmull := Multiplication(v) as nat;
      FactorRead(Decoded(cfgr).pll);
      NoWrap(hsi / 2, pllmull);
      NoWrap(hse / 2, pllmull);
      NoWrap(hse, pllmull);
      v := ReadCfgr();
      InputRead(cfgr, status);
      if !FromHse(v) {
        f := (hsi / 2 * pllmull) % 0x1_0000_0000;
      } else {
        v := ReadCfgr();
        InputRead(cfgr, status);
        if Halved(v) {
          f := (hse / 2 * pllmull) % 0x1_0000_0000;
        } else {
          f := (hse * pllmull) % 0x1_0000_0000;
        }
      }
    }

    method SystemClockInUse() returns (f: nat)
      requires Valid() && 17 * hsi < 0x1_0000_0000 && 17 * hse < 0x1_0000_0000
      modifies this`accesses, this`status, this`trail
      ensures Valid() && StaysGood()
      ensures f == SystemClock(old(InUseAfter(1)), Decoded(cfgr).pll, hsi, hse)
    {
      hide Valid, GoodTrail, InUse, WithStatus, Decoded, Source, Sws, PllInput, PllFactor;
      var v := ReadCfgr();
      SourceRead(cfgr, status);
      match Source(v)
      case 0x0 => f := hsi;
      case 0x4 => f := hse;
      case 0x8 => f := PllClock();
      case _ => f := hsi;
    }

    /** The clock in use is the one the first of the reads shows. */
    method SystemCoreClockUpdate()
      requires Valid() && 17 * hsi < 0x1_0000_0000 && 17 * hse < 0x1_0000_0000
      modifies this`coreClock, this`accesses, this`status, this`trail
      ensures Valid() && StaysGood()
      ensures coreClock == ReadBack(old(InUseAfter(1)), Decoded(cfgr), hsi, hse)
      ensures coreClock == ReadBackOf(old(InUseAfter(1)), cfgr, hsi, hse)
      ensures CoreClock(old(InUseAfter(1)), Decoded(cfgr), hsi, hse) == Some(coreClock)
         <==> old(InUseAfter(1)) != 2 || PllCode(Decoded(cfgr).pll) != 0xF
    {
      hide GoodTrail, InUse, WithStatus, Decoded, Sws, Prescaler, SystemClock, AhbDivisor, Pow2, CoreClock, PllCode,
        ReadBackOf;
      ReadBackIsNamed(InUseAfter(1), Decoded(cfgr), hsi, hse);
      ReadBackOnWord(InUseAfter(1), cfgr, hsi, hse);
      coreClock := SystemClockInUse();
      var v := ReadCfgr();
      PrescalerRead(cfgr, status);
      TableMatchesDivisors(Prescaler(v));
      coreClock := coreClock / Pow2(AHB_PRESC_TABLE[Prescaler(v) as nat]);
    }

    /** Start-up followed by a read-back gives nine times the oscillator, or, from reset, HSI when the
        oscillator did not start. */
    method StartAndReadBack() returns (ghost started: bool, ghost waits: nat)
      requires Valid() && Answers(ready, follows)
      requires 17 * hsi < 0x1_0000_0000 && 17 * hse < 0x1_0000_0000
      modifies this
      ensures Valid() && old(trail) <= trail
      ensures started == ShowsHse(ready(old(crReads) + 4 + waits))
      ensures GoodTrail(old(trail)) ==> (GoodTrail(trail) <==> old(InUseAfter(4)) != 2)
      ensures started && old(InUseAfter(4)) != 2 ==> coreClock == 9 * hse
      ensures !started && old(OnHsi()) ==> coreClock == hsi
    {
      hide GoodTrail, HseReady, ShowsHse, Sws, Decoded, CoreClock, ReadBack, PllCode, Answers, Switches, PllOn,
        Latency, Prefetching;
      if OnHsi() { SettledInUse(4); }
      started, waits := SystemInit();
      label L:
      assert OnHsi() || RunningAt72() ==> InUseAfter(1) == Sws(status);
      SystemCoreClockUpdate();
      if GoodTrail(trail) { GoodPrefix(old@L(trail), trail); }
      ClockAfterBringUp(hsi, hse);
    }
  }
}
