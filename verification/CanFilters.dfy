/** CanFilters: the filter bank table, spread over four bit-per-bank registers and two words per
bank. */
module CanFilters {
  import opened Bits
  import opened Runs

  const BANKS: nat := 28

  datatype FilterInit = FilterInit(
    number: nat, scale32: bool, list: bool, fifo1: bool, activate: bool,
    idHigh: bv16, idLow: bv16, maskHigh: bv16, maskLow: bv16)

  /** One bank as the controller reads it. */
  datatype Bank = Bank(scale32: bool, list: bool, fifo1: bool, active: bool,
                       idHigh: bv16, idLow: bv16, maskHigh: bv16, maskLow: bv16)

  datatype Registers =
    Registers(fs1r: bv32, fm1r: bv32, ffa1r: bv32, fa1r: bv32, fr1: seq<bv32>, fr2: seq<bv32>)

  predicate Shaped(r: Registers) {
    |r.fr1| == BANKS && |r.fr2| == BANKS
  }

  function Low(w: bv32): bv16 {
    (w & 0xFFFF) as bv16
  }

  function High(w: bv32): bv16 {
    ((w >> 16) & 0xFFFF) as bv16
  }

  function Word(high: bv16, low: bv16): bv32 {
    ((high as bv32 & 0xFFFF) << 16) | (low as bv32 & 0xFFFF)
  }

  lemma WordHalves(high: bv16, low: bv16)
    ensures High(Word(high, low)) == high && Low(Word(high, low)) == low
  {}

  /** A 32-bit bank holds its identifier in the first word and its mask in the second; a 16-bit bank
      holds the low identifier and mask in the first word and the high ones in the second. */
  function BankAt(r: Registers, n: nat): Bank
    requires Shaped(r) && n < BANKS
  {
    var w1, w2 := r.fr1[n], r.fr2[n];
    if Bit(r.fs1r, Pos(n)) then
      Bank(true, Bit(r.fm1r, Pos(n)), Bit(r.ffa1r, Pos(n)), Bit(r.fa1r, Pos(n)), High(w1), Low(w1), High(w2), Low(w2))
    else
      Bank(false, Bit(r.fm1r, Pos(n)), Bit(r.ffa1r, Pos(n)), Bit(r.fa1r, Pos(n)), Low(w2), Low(w1), High(w2), High(w1))
  }

  function BankFor(c: FilterInit): Bank {
    Bank(c.scale32, c.list, c.fifo1, c.activate, c.idHigh, c.idLow, c.maskHigh, c.maskLow)
  }

  /** The call set its own bank and no other. */
  ghost predicate Configured(r: Registers, c: FilterInit, r': Registers) {
    && Shaped(r) && Shaped(r') && c.number < BANKS
    && forall n: nat | n < BANKS :: BankAt(r', n) == if n == c.number then BankFor(c) else BankAt(r, n)
  }

  predicate Halves(w: bv32, high: bv16, low: bv16) {
    ((w >> 16) & 0xFFFF) as bv16 == high && (w & 0xFFFF) as bv16 == low
  }

  /** In the registers themselves: bit c.number of the four bit-per-bank registers, and the two words of
      bank c.number, are those of the call, and nothing else changes. */
  ghost predicate RegistersSet(r: Registers, c: FilterInit, r': Registers) {
    && Shaped(r) && Shaped(r') && c.number < BANKS
    && BitNumberBecame(r.fs1r, c.number, c.scale32, r'.fs1r)
    && BitNumberBecame(r.fm1r, c.number, c.list, r'.fm1r)
    && BitNumberBecame(r.ffa1r, c.number, c.fifo1, r'.ffa1r)
    && BitNumberBecame(r.fa1r, c.number, c.activate, r'.fa1r)
    && r'.fr1 == r.fr1[c.number := r'.fr1[c.number]] && r'.fr2 == r.fr2[c.number := r'.fr2[c.number]]
    && (if c.scale32 then
          Halves(r'.fr1[c.number], c.idHigh, c.idLow) && Halves(r'.fr2[c.number], c.maskHigh, c.maskLow)
        else
          Halves(r'.fr1[c.number], c.maskLow, c.idLow) && Halves(r'.fr2[c.number], c.maskHigh, c.idHigh))
  }

  class FilterUnit {
    var fmr: bv32
    var fs1r: bv32
    var fm1r: bv32
    var ffa1r: bv32
    var fa1r: bv32
    const fr1: array<bv32>
    const fr2: array<bv32>

    ghost predicate Valid()
      reads this
    {
      fr1.Length == BANKS && fr2.Length == BANKS && fr1 != fr2
    }

    ghost function State(): Registers
      reads this, fr1, fr2
    {
      Registers(fs1r, fm1r, ffa1r, fa1r, fr1[..], fr2[..])
    }

    constructor ()
      ensures Valid() && fmr == 0x2A1C_0E01 && fresh(fr1) && fresh(fr2)
    {
      fmr := 0x2A1C_0E01;
      fs1r, fm1r, ffa1r, fa1r := 0, 0, 0, 0;
      fr1, fr2 := new bv32[BANKS](_ => 0), new bv32[BANKS](_ => 0);
    }

    /** The words of a bank may be written only in initialisation mode and while it is inactive. */
    method WriteWords(n: nat, w1: bv32, w2: bv32)
      requires Valid() && n < BANKS
      requires Bit(fmr, 0) && !Bit(fa1r, Pos(n))
      modifies fr1, fr2
      ensures fr1[..] == old(fr1[..])[n := w1]
      ensures fr2[..] == old(fr2[..])[n := w2]
    {
      fr1[n] := w1;
      fr2[n] := w2;
    }

    /** Initialisation mode on, and the bank off. */
    method EnterInit(n: nat)
      requires n < BANKS
      modifies this`fmr, this`fa1r
      ensures BitBecame(old(fmr), 0, true, fmr) && BitBecame(old(fa1r), Pos(n), false, fa1r)
      ensures Bit(fmr, 0) && !Bit(fa1r, Pos(n))
    {
      hide Bit, Assign, Pos;
      fmr := Assign(fmr, 0, true);
      fa1r := Assign(fa1r, Pos(n), false);
    }

    /** The scale bit and the two words that go with it. */
    method SetWords(c: FilterInit)
      requires Valid() && c.number < BANKS
      requires Bit(fmr, 0) && !Bit(fa1r, Pos(c.number))
      modifies this`fs1r, fr1, fr2
      ensures BitBecame(old(fs1r), Pos(c.number), c.scale32, fs1r)
      ensures fr1[..] == old(fr1[..])[c.number := WordsFor(c).0]
      ensures fr2[..] == old(fr2[..])[c.number := WordsFor(c).1]
    {
      hide Bit, BitBecame, Word, Assign, Pos;
      if c.scale32 {
        fs1r := Assign(fs1r, Pos(c.number), true);
        WriteWords(c.number, Word(c.idHigh, c.idLow), Word(c.maskHigh, c.maskLow));
      } else {
        fs1r := Assign(fs1r, Pos(c.number), false);
        WriteWords(c.number, Word(c.maskLow, c.idLow), Word(c.maskHigh, c.idHigh));
      }
    }

    method Init(c: FilterInit)
      requires Valid() && c.number < BANKS
      modifies this, fr1, fr2
      ensures Valid()
      ensures Configured(old(State()), c, State())
      ensures RegistersSet(old(State()), c, State())
      ensures BitBecame(old(fmr), 0, false, fmr)
    {
      hide Bit, BitBecame, Word, Assign, WordsFor, Configured, RegistersSet, Pos;
      ghost var r := State();
      EnterInit(c.number);
      SetWords(c);
      fm1r := Assign(fm1r, Pos(c.number), c.list);
      ffa1r := Assign(ffa1r, Pos(c.number), c.fifo1);
      ghost var inactive := fa1r;
      if c.activate {
        fa1r := Assign(fa1r, Pos(c.number), true);
        BitBecameAgain(r.fa1r, Pos(c.number), false, inactive, true, fa1r);
      }
      BitBecameAgain(old(fmr), 0, true, fmr, false, Assign(fmr, 0, false));
      fmr := Assign(fmr, 0, false);
      BankConfigured(r, c, State());
      UpdatedRegisters(r, c, State());
    }
  }

  function WordsFor(c: FilterInit): (bv32, bv32) {
    if c.scale32 then (Word(c.idHigh, c.idLow), Word(c.maskHigh, c.maskLow))
    else (Word(c.maskLow, c.idLow), Word(c.maskHigh, c.idHigh))
  }

  lemma BitBecameAt(w: bv32, n: nat, on: bool, w': bv32, k: nat)
    requires n < BANKS && k < BANKS && BitBecame(w, Pos(n), on, w')
    ensures Bit(w', Pos(k)) == if k == n then on else Bit(w, Pos(k))
  {
    hide Bit, Pos;
    if k != n { PosInjective(k, n); }
  }

  lemma WordsDecode(c: FilterInit)
    ensures var (w1, w2) := WordsFor(c);
      if c.scale32 then
        High(w1) == c.idHigh && Low(w1) == c.idLow && High(w2) == c.maskHigh && Low(w2) == c.maskLow
      else
        Low(w2) == c.idHigh && Low(w1) == c.idLow && High(w2) == c.maskHigh && High(w1) == c.maskLow
  {
    hide Word, Low, High;
    WordHalves(c.idHigh, c.idLow);
    WordHalves(c.maskHigh, c.maskLow);
    WordHalves(c.maskLow, c.idLow);
    WordHalves(c.maskHigh, c.idHigh);
  }

  /** One bit in each register and the two words of a bank make up the configuration of that bank. */
  ghost predicate Updated(r: Registers, c: FilterInit, r': Registers) {
    && Shaped(r) && c.number < BANKS
    && BitBecame(r.fs1r, Pos(c.number), c.scale32, r'.fs1r)
    && BitBecame(r.fm1r, Pos(c.number), c.list, r'.fm1r)
    && BitBecame(r.ffa1r, Pos(c.number), c.fifo1, r'.ffa1r)
    && BitBecame(r.fa1r, Pos(c.number), c.activate, r'.fa1r)
    && r'.fr1 == r.fr1[c.number := WordsFor(c).0]
    && r'.fr2 == r.fr2[c.number := WordsFor(c).1]
  }

  lemma BankUpdated(r: Registers, c: FilterInit, r': Registers, n: nat)
    requires Updated(r, c, r') && n < BANKS
    ensures Shaped(r') && BankAt(r', n) == if n == c.number then BankFor(c) else BankAt(r, n)
  {
    hide Bit, BitBecame, WordsFor, Low, High, Pos;
    BitBecameAt(r.fs1r, c.number, c.scale32, r'.fs1r, n);
    BitBecameAt(r.fm1r, c.number, c.list, r'.fm1r, n);
    BitBecameAt(r.ffa1r, c.number, c.fifo1, r'.ffa1r, n);
    BitBecameAt(r.fa1r, c.number, c.activate, r'.fa1r, n);
    WordsDecode(c);
  }

  lemma UpdatedRegisters(r: Registers, c: FilterInit, r': Registers)
    requires Updated(r, c, r')
    ensures RegistersSet(r, c, r')
  {
    hide Bit, BitBecame, BitNumberBecame, WordsFor, Pos;
    BecameByNumber(r.fs1r, c.number, c.scale32, r'.fs1r);
    BecameByNumber(r.fm1r, c.number, c.list, r'.fm1r);
    BecameByNumber(r.ffa1r, c.number, c.fifo1, r'.ffa1r);
    BecameByNumber(r.fa1r, c.number, c.activate, r'.fa1r);
    WordsDecode(c);
  }

  lemma BankConfigured(r: Registers, c: FilterInit, r': Registers)
    requires Updated(r, c, r')
    ensures Configured(r, c, r')
  {
    hide BankAt, BankFor, BitBecame, WordsFor, Pos;
    forall n: nat | n < BANKS
      ensures BankAt(r', n) == if n == c.number then BankFor(c) else BankAt(r, n)
    {
      BankUpdated(r, c, r', n);
    }
  }

  // ----- Over any sequence of calls -----

  ghost predicate IsRun(states: seq<Registers>, calls: seq<FilterInit>) {
    |states| == |calls| + 1 && forall i :: 0 <= i < |calls| ==> Configured(states[i], calls[i], states[i + 1])
  }

  /** Each bank reads as the last call naming it left it, and as at the start if none did. */
  lemma BankAfterRun(states: seq<Registers>, calls: seq<FilterInit>, n: nat)
    requires IsRun(states, calls) && n < BANKS && Shaped(states[0])
    ensures Shaped(states[|calls|])
    ensures BankAt(states[|calls|], n)
         == FinalValue(calls, (c: FilterInit) => c.number == n, BankFor, BankAt(states[0], n))
  {
    hide BankFor;
    var view := (r: Registers) => if Shaped(r) then BankAt(r, n) else BankAt(states[0], n);
    forall i | 0 <= i < |calls|
      ensures view(states[i + 1]) == if calls[i].number == n then BankFor(calls[i]) else view(states[i])
    {
      assert Configured(states[i], calls[i], states[i + 1]);
    }
    LastWriter(states, calls, view, (c: FilterInit) => c.number == n, BankFor);
  }
}
