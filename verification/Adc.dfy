/** Adc: the regular and injected sequencers and the sample times of an ADC. */
module Adc {
  import opened Bits

  datatype Registers = Registers(sqr1: bv32, sqr2: bv32, sqr3: bv32, smpr1: bv32, smpr2: bv32, jsqr: bv32)

  datatype Call =
    | Init(length: bv32)
    | RegularChannel(channel: bv32, rank: bv32, sampleTime: bv32)
    | InjectedChannel(channel: bv32, rank: bv32, sampleTime: bv32)
    | InjectedLength(length: bv32)

  /** The ranges of the parameter checks. */
  predicate InRange(c: Call) {
    match c
    case Init(n) => 1 <= n <= 16
    case RegularChannel(ch, r, t) => ch < 18 && 1 <= r <= 16 && t < 8
    case InjectedChannel(ch, r, t) => ch < 18 && 1 <= r <= 4 && t < 8
    case InjectedLength(n) => 1 <= n <= 4
  }

  // ----- What the registers mean -----

  /** The channel converted at rank `r` of the regular sequence. */
  function Rank(g: Registers, r: bv32): bv32
    requires 1 <= r <= 16
  {
    if r < 7 then Slot5(g.sqr3, r - 1)
    else if r < 13 then Slot5(g.sqr2, r - 7)
    else Slot5(g.sqr1, r - 13)
  }

  function Length(g: Registers): bv32 {
    Field(g.sqr1, 20, 0xF) + 1
  }

  function SampleTime(g: Registers, channel: bv32): bv32
    requires channel < 18
  {
    if channel > 9 then Slot3(g.smpr1, channel - 10) else Slot3(g.smpr2, channel)
  }

  /** Slot `k` of the injected sequence; the last slot is converted last. */
  function Slot(g: Registers, k: bv32): bv32
    requires k < 4
  {
    Slot5(g.jsqr, k)
  }

  function InjectedCount(g: Registers): bv32 {
    Field(g.jsqr, 20, 0x3) + 1
  }

  /** The injected sequence is right-aligned: rank `r` of a sequence of `n` sits in slot r + 3 - n. */
  function InjectedRank(g: Registers, r: bv32): bv32
    requires 1 <= r <= InjectedCount(g) <= 4
  {
    Slot(g, r + 3 - InjectedCount(g))
  }

  /** The bits no field above covers. */
  function Spare(g: Registers): (bv32, bv32, bv32, bv32, bv32, bv32) {
    (Above(g.sqr1, 24), Above(g.sqr2, 30), Above(g.sqr3, 30), Above(g.smpr1, 24), Above(g.smpr2, 30),
     Above(g.jsqr, 22))
  }

  /** The bits of `w` from bit `i` on. */
  function Above(w: bv32, i: bv32): bv32
    requires i < 32
  {
    w >> i
  }

  lemma CountRange(g: Registers)
    ensures 1 <= InjectedCount(g) <= 4
  {}

  // ----- What a call does -----

  /** The slot of rank `rank` in a sequence of `count`. */
  function Position(rank: bv32, count: bv32): bv32 {
    rank + 3 - count
  }

  function Named(g: Registers, c: Call): bv32
    requires c.InjectedChannel?
  {
    Position(c.rank, InjectedCount(g))
  }

  /** An injected rank is within the stored length. */
  predicate Fits(g: Registers, c: Call) {
    c.InjectedChannel? ==> c.rank <= InjectedCount(g)
  }

  /** An injected rank is one above the stored length. */
  predicate NamesNext(g: Registers, c: Call) {
    c.InjectedChannel? && c.rank == InjectedCount(g) + 1
  }

  predicate SetsSample(c: Call, channel: bv32) {
    !c.Init? && !c.InjectedLength? && c.channel == channel
  }

  predicate SetsRank(c: Call, r: bv32) {
    c.RegularChannel? && c.rank == r
  }

  /** Each rank, slot and sample time and the regular length take the value the call gives them, and keep
      their own if the call gives none. */
  ghost predicate FieldsStepped(g: Registers, c: Call, g': Registers) {
    && (forall r: bv32 | 1 <= r <= 16 :: Rank(g', r) == if SetsRank(c, r) then c.channel else Rank(g, r))
    && (forall ch: bv32 | ch < 18 ::
          SampleTime(g', ch) == if SetsSample(c, ch) then c.sampleTime else SampleTime(g, ch))
    && Length(g') == (if c.Init? then c.length else Length(g))
    && (forall k: bv32 | k < 4 ::
          Slot(g', k) == if c.InjectedChannel? && k == Named(g, c) then c.channel else Slot(g, k))
  }

  function CountAfter(g: Registers, c: Call): bv32 {
    if c.InjectedLength? then c.length else InjectedCount(g)
  }

  /** So does the injected length, and no other bit changes. */
  ghost predicate Stepped(g: Registers, c: Call, g': Registers) {
    FieldsStepped(g, c, g') && InjectedCount(g') == CountAfter(g, c) && Spare(g') == Spare(g)
  }

  /** What holds of a call with any injected rank: one above the length may change the length, and those
      above that change unused bits. */
  ghost predicate Took(g: Registers, c: Call, g': Registers) {
    && FieldsStepped(g, c, g')
    && (Fits(g, c) ==> Stepped(g, c, g'))
    && (!NamesNext(g, c) ==> InjectedCount(g') == CountAfter(g, c))
  }

  lemma SteppedTook(g: Registers, c: Call, g': Registers)
    requires Stepped(g, c, g')
    ensures Took(g, c, g')
  {
    hide FieldsStepped;
  }

  lemma SixSlotsSpare(w: bv32, i: bv32, v: bv32)
    requires i < 6 && v < 32
    ensures Above(WithSlot5(w, i, v), 30) == Above(w, 30)
  {}

  lemma TenSlotsSpare(w: bv32, i: bv32, v: bv32)
    requires i < 10 && v < 8
    ensures Above(WithSlot3(w, i, v), 30) == Above(w, 30)
  {}

  lemma EightSlotsSpare(w: bv32, i: bv32, v: bv32)
    requires i < 8 && v < 8
    ensures Above(WithSlot3(w, i, v), 24) == Above(w, 24)
  {}

  lemma FourSlotsTop(w: bv32, i: bv32, v: bv32)
    requires i < 4 && v < 32
    ensures Above(WithSlot5(w, i, v), 20) == Above(w, 20)
  {}

  lemma LengthFromTop(w: bv32, w': bv32)
    requires Above(w, 20) == Above(w', 20)
    ensures Field(w, 20, 0xF) == Field(w', 20, 0xF) && Above(w, 24) == Above(w', 24)
  {}

  lemma CountFromTop(w: bv32, w': bv32)
    requires Above(w, 20) == Above(w', 20)
    ensures Field(w, 20, 0x3) == Field(w', 20, 0x3) && Above(w, 22) == Above(w', 22)
  {}

  function WithLength(w: bv32, length: bv32): bv32 {
    (w & 0xFF0F_FFFF) | ((length - 1) << 20)
  }

  lemma LengthField(w: bv32, length: bv32)
    requires 1 <= length <= 16
    ensures Field(WithLength(w, length), 20, 0xF) + 1 == length
    ensures Above(WithLength(w, length), 24) == Above(w, 24)
  {}

  lemma LengthKeepsSlots(w: bv32, length: bv32, i: bv32)
    requires 1 <= length <= 16 && i < 4
    ensures Slot5(WithLength(w, length), i) == Slot5(w, i)
  {}

  function WithCount(w: bv32, length: bv32): bv32 {
    (w & 0xFFCF_FFFF) | ((length - 1) << 20)
  }

  lemma CountField(w: bv32, length: bv32)
    requires 1 <= length <= 4
    ensures Field(WithCount(w, length), 20, 0x3) + 1 == length
    ensures Above(WithCount(w, length), 22) == Above(w, 22)
  {}

  lemma CountKeepsSlots(w: bv32, length: bv32, i: bv32)
    requires 1 <= length <= 4 && i < 4
    ensures Slot5(WithCount(w, length), i) == Slot5(w, i)
  {}

  /** The register a regular rank lives in, with the rank's slot replaced. */
  function WithRank(g: Registers, rank: bv32, ch: bv32): Registers
    requires 1 <= rank <= 16
  {
    if rank < 7 then g.(sqr3 := WithSlot5(g.sqr3, rank - 1, ch))
    else if rank < 13 then g.(sqr2 := WithSlot5(g.sqr2, rank - 7, ch))
    else g.(sqr1 := WithSlot5(g.sqr1, rank - 13, ch))
  }

  lemma RankWritten(g: Registers, rank: bv32, ch: bv32, r: bv32)
    requires 1 <= rank <= 16 && ch < 32 && 1 <= r <= 16
    ensures Rank(WithRank(g, rank, ch), r) == if r == rank then ch else Rank(g, r)
  {
    hide Slot5, WithSlot5;
    if rank < 7 {
      if r < 7 { Put5(g.sqr3, rank - 1, ch, r - 1); }
    } else if rank < 13 {
      if 7 <= r < 13 { Put5(g.sqr2, rank - 7, ch, r - 7); }
    } else {
      if 13 <= r { Put5(g.sqr1, rank - 13, ch, r - 13); }
    }
  }

  function WithSampleTime(g: Registers, ch: bv32, t: bv32): Registers
    requires ch < 18
  {
    if ch > 9 then g.(smpr1 := WithSlot3(g.smpr1, ch - 10, t)) else g.(smpr2 := WithSlot3(g.smpr2, ch, t))
  }

  lemma SampleTimeWritten(g: Registers, ch: bv32, t: bv32, k: bv32)
    requires ch < 18 && t < 8 && k < 18
    ensures SampleTime(WithSampleTime(g, ch, t), k) == if k == ch then t else SampleTime(g, k)
  {
    hide Slot3, WithSlot3;
    if ch > 9 {
      if k > 9 { Put3(g.smpr1, ch - 10, t, k - 10); }
    } else {
      if k <= 9 { Put3(g.smpr2, ch, t, k); }
    }
  }

  /** The slot `k` of JSQR replaced; from `k` = 4 on the slot overlaps or lies above the length. */
  function WithInjected(w: bv32, k: bv32, v: bv32): bv32
    requires k < 7
  {
    FirstBitSmall(k);
    Replaced(w, SlotMask(FirstBit(k)), Shifted(v, FirstBit(k)))
  }

  lemma FirstBitSmall(k: bv32)
    requires k < 7
    ensures FirstBit(k) <= 30
  {}

  lemma InjectedWritten(w: bv32, k: bv32, v: bv32, j: bv32)
    requires k < 4 && v < 32 && j < 4
    ensures Slot5(WithInjected(w, k, v), j) == if j == k then v else Slot5(w, j)
    ensures Above(WithInjected(w, k, v), 20) == Above(w, 20)
  {
    Put5(w, k, v, j);
    FourSlotsTop(w, k, v);
  }

  // ----- The word an injected rank is written to, bit by bit -----

  function FirstBit(k: bv32): bv32 {
    5 * k
  }

  predicate InSlot(i: bv32, b: bv32) {
    i <= b && b - i < 5
  }

  predicate BitFrom(v: bv32, i: bv32, b: bv32)
    requires b < 32
  {
    i <= b && Bit(v, b - i)
  }

  /** The five bits from 5 * k on are those of `v`, as far as they lie in the word, and all other bits are
      kept. */
  ghost predicate FiveBitsSet(w: bv32, k: bv32, v: bv32, w': bv32) {
    forall b: bv32 | b < 32 ::
      Bit(w', b) == if InSlot(FirstBit(k), b) then BitFrom(v, FirstBit(k), b) else Bit(w, b)
  }

  function Replaced(w: bv32, mask: bv32, v: bv32): bv32 {
    (w & !mask) | v
  }

  function SlotMask(i: bv32): bv32
    requires i <= 30
  {
    0x1F << i
  }

  function Shifted(v: bv32, i: bv32): bv32
    requires i <= 30
  {
    v << i
  }

  lemma ReplacedBit(w: bv32, mask: bv32, v: bv32, b: bv32)
    requires b < 32
    ensures Bit(Replaced(w, mask, v), b) == (Bit(v, b) || (!Bit(mask, b) && Bit(w, b)))
  {
    hide Bit;
    ClearMask(w, mask, b);
    SetMask(w & !mask, v, b);
  }

  lemma SlotMaskBit(i: bv32, b: bv32)
    requires i <= 30 && b < 32
    ensures Bit(SlotMask(i), b) == InSlot(i, b)
  {}

  lemma ShiftedBit(v: bv32, i: bv32, b: bv32)
    requires i <= 30 && v < 32 && b < 32
    ensures Bit(Shifted(v, i), b) == (InSlot(i, b) && BitFrom(v, i, b))
  {
    hide Bit, Shifted;
    if i > b { NothingBelow(v, i, b); } else { ShiftedUp(v, i, b); }
  }

  lemma NothingBelow(v: bv32, i: bv32, b: bv32)
    requires b < i <= 30
    ensures !Bit(Shifted(v, i), b)
  {}

  lemma ShiftedUp(v: bv32, i: bv32, b: bv32)
    requires i <= 30 && v < 32 && i <= b < 32
    ensures Bit(Shifted(v, i), b) == (b - i < 5 && Bit(v, b - i))
  {}

  lemma ReplacedSlotBit(w: bv32, i: bv32, v: bv32, b: bv32)
    requires i <= 30 && v < 32 && b < 32
    ensures Bit(Replaced(w, SlotMask(i), Shifted(v, i)), b) == if InSlot(i, b) then BitFrom(v, i, b) else Bit(w, b)
  {
    hide Bit, Replaced, SlotMask, Shifted, InSlot, BitFrom;
    ReplacedBit(w, SlotMask(i), Shifted(v, i), b);
    SlotMaskBit(i, b);
    ShiftedBit(v, i, b);
  }

  lemma FiveBits(w: bv32, k: bv32, v: bv32)
    requires k < 7 && v < 32
    ensures FiveBitsSet(w, k, v, WithInjected(w, k, v))
  {
    hide Bit, Replaced, SlotMask, Shifted, InSlot, BitFrom, FirstBit;
    FirstBitSmall(k);
    forall b: bv32 | b < 32
      ensures Bit(WithInjected(w, k, v), b) == if InSlot(FirstBit(k), b) then BitFrom(v, FirstBit(k), b) else Bit(w, b)
    {
      ReplacedSlotBit(w, FirstBit(k), v, b);
    }
  }

  /** The length stored in the word, and the position of a rank in a right-aligned sequence of that length. */
  function StoredLength(jsqr: bv32): bv32 {
    ((jsqr >> 20) & 0x3) + 1
  }

  function RankPosition(rank: bv32, length: bv32): bv32 {
    rank + 3 - length
  }

  // ----- Spare bits and the length stay -----

  lemma RankKeepsRest(g: Registers, rank: bv32, ch: bv32)
    requires 1 <= rank <= 16 && ch < 32
    ensures var g' := WithRank(g, rank, ch); Length(g') == Length(g) && Spare(g') == Spare(g)
  {
    hide Field, WithSlot5, Above;
    if rank < 7 {
      SixSlotsSpare(g.sqr3, rank - 1, ch);
    } else if rank < 13 {
      SixSlotsSpare(g.sqr2, rank - 7, ch);
    } else {
      FourSlotsTop(g.sqr1, rank - 13, ch);
      LengthFromTop(WithSlot5(g.sqr1, rank - 13, ch), g.sqr1);
    }
  }

  lemma SampleTimeKeepsRest(g: Registers, ch: bv32, t: bv32)
    requires ch < 18 && t < 8
    ensures var g' := WithSampleTime(g, ch, t); Length(g') == Length(g) && Spare(g') == Spare(g)
  {
    hide WithSlot3, Above, Field;
    if ch > 9 { EightSlotsSpare(g.smpr1, ch - 10, t); } else { TenSlotsSpare(g.smpr2, ch, t); }
  }

  /** Each field depends on its own registers only. */
  lemma RankFrame(g: Registers, g': Registers, r: bv32)
    requires 1 <= r <= 16 && g.sqr1 == g'.sqr1 && g.sqr2 == g'.sqr2 && g.sqr3 == g'.sqr3
    ensures Rank(g, r) == Rank(g', r)
  {}

  lemma SampleTimeFrame(g: Registers, g': Registers, ch: bv32)
    requires ch < 18 && g.smpr1 == g'.smpr1 && g.smpr2 == g'.smpr2
    ensures SampleTime(g, ch) == SampleTime(g', ch)
  {}

  lemma SlotFrame(g: Registers, g': Registers, k: bv32)
    requires k < 4 && g.jsqr == g'.jsqr
    ensures Slot(g, k) == Slot(g', k) && InjectedCount(g) == InjectedCount(g')
  {}

  /** The calls are made of two or three of the following changes, each of one kind of field. */
  ghost predicate SetsOnlySample(g: Registers, ch: bv32, t: bv32, g': Registers) {
    && (forall k: bv32 | k < 18 :: SampleTime(g', k) == if k == ch then t else SampleTime(g, k))
    && (forall r: bv32 | 1 <= r <= 16 :: Rank(g', r) == Rank(g, r))
    && (forall k: bv32 | k < 4 :: Slot(g', k) == Slot(g, k))
    && Length(g') == Length(g) && InjectedCount(g') == InjectedCount(g) && Spare(g') == Spare(g)
  }

  ghost predicate SetsOnlyRank(g: Registers, rank: bv32, ch: bv32, g': Registers) {
    && (forall r: bv32 | 1 <= r <= 16 :: Rank(g', r) == if r == rank then ch else Rank(g, r))
    && (forall k: bv32 | k < 18 :: SampleTime(g', k) == SampleTime(g, k))
    && (forall k: bv32 | k < 4 :: Slot(g', k) == Slot(g, k))
    && Length(g') == Length(g) && InjectedCount(g') == InjectedCount(g) && Spare(g') == Spare(g)
  }

  ghost predicate SetsSlot(g: Registers, slot: bv32, ch: bv32, g': Registers) {
    && (forall k: bv32 | k < 4 :: Slot(g', k) == if k == slot then ch else Slot(g, k))
    && (forall r: bv32 | 1 <= r <= 16 :: Rank(g', r) == Rank(g, r))
    && (forall k: bv32 | k < 18 :: SampleTime(g', k) == SampleTime(g, k))
    && Length(g') == Length(g)
  }

  ghost predicate SetsOnlySlot(g: Registers, slot: bv32, ch: bv32, g': Registers) {
    SetsSlot(g, slot, ch, g') && InjectedCount(g') == InjectedCount(g) && Spare(g') == Spare(g)
  }

  lemma SamplePart(g: Registers, ch: bv32, t: bv32)
    requires ch < 18 && t < 8
    ensures SetsOnlySample(g, ch, t, WithSampleTime(g, ch, t))
  {
    hide Rank, SampleTime, Slot, InjectedCount, Length, Spare, WithSlot3;
    var g' := WithSampleTime(g, ch, t);
    SampleTimeKeepsRest(g, ch, t);
    SlotFrame(g, g', 0);
    forall k: bv32 | k < 18 ensures SampleTime(g', k) == if k == ch then t else SampleTime(g, k) {
      SampleTimeWritten(g, ch, t, k);
    }
    forall r: bv32 | 1 <= r <= 16 ensures Rank(g', r) == Rank(g, r) { RankFrame(g, g', r); }
    forall k: bv32 | k < 4 ensures Slot(g', k) == Slot(g, k) { SlotFrame(g, g', k); }
  }

  lemma RankPart(g: Registers, rank: bv32, ch: bv32)
    requires 1 <= rank <= 16 && ch < 32
    ensures SetsOnlyRank(g, rank, ch, WithRank(g, rank, ch))
  {
    hide Rank, SampleTime, Slot, InjectedCount, Length, Spare, WithSlot5;
    var g' := WithRank(g, rank, ch);
    RankKeepsRest(g, rank, ch);
    SlotFrame(g, g', 0);
    forall r: bv32 | 1 <= r <= 16 ensures Rank(g', r) == if r == rank then ch else Rank(g, r) {
      RankWritten(g, rank, ch, r);
    }
    forall k: bv32 | k < 18 ensures SampleTime(g', k) == SampleTime(g, k) { SampleTimeFrame(g, g', k); }
    forall k: bv32 | k < 4 ensures Slot(g', k) == Slot(g, k) { SlotFrame(g, g', k); }
  }

  lemma SlotPart(g: Registers, k: bv32, ch: bv32)
    requires k < 4 && ch < 32
    ensures SetsOnlySlot(g, k, ch, g.(jsqr := WithInjected(g.jsqr, k, ch)))
  {
    hide Rank, SampleTime, Slot, InjectedCount, Length, WithInjected, Above;
    var g' := g.(jsqr := WithInjected(g.jsqr, k, ch));
    LengthFrame(g, g');
    SlotWritten(g, g', k, ch, 0);
    forall j: bv32 | j < 4 ensures Slot(g', j) == if j == k then ch else Slot(g, j) {
      SlotWritten(g, g', k, ch, j);
    }
    forall r: bv32 | 1 <= r <= 16 ensures Rank(g', r) == Rank(g, r) { RankFrame(g, g', r); }
    forall i: bv32 | i < 18 ensures SampleTime(g', i) == SampleTime(g, i) { SampleTimeFrame(g, g', i); }
  }

  /** Beyond the last slot no slot is replaced, and the count beside them only by slot 4. */
  lemma BeyondPart(g: Registers, k: bv32, ch: bv32)
    requires 4 <= k < 7 && ch < 32
    ensures var g' := g.(jsqr := WithInjected(g.jsqr, k, ch));
      SetsSlot(g, k, ch, g') && (k != 4 ==> InjectedCount(g') == InjectedCount(g))
  {
    hide Rank, SampleTime, Slot5, Length, WithInjected, Field;
    var g' := g.(jsqr := WithInjected(g.jsqr, k, ch));
    LengthFrame(g, g');
    forall j: bv32 | j < 4 ensures Slot(g', j) == Slot(g, j) { SlotsBelow(g.jsqr, k, ch, j); }
    forall r: bv32 | 1 <= r <= 16 ensures Rank(g', r) == Rank(g, r) { RankFrame(g, g', r); }
    forall i: bv32 | i < 18 ensures SampleTime(g', i) == SampleTime(g, i) { SampleTimeFrame(g, g', i); }
    if k != 4 { CountBelow(g.jsqr, k, ch); }
  }

  lemma SlotsBelow(w: bv32, k: bv32, v: bv32, j: bv32)
    requires 4 <= k < 7 && v < 32 && j < 4
    ensures Slot5(WithInjected(w, k, v), j) == Slot5(w, j)
  {}

  lemma CountBelow(w: bv32, k: bv32, v: bv32)
    requires 5 <= k < 7 && v < 32
    ensures Field(WithInjected(w, k, v), 20, 0x3) == Field(w, 20, 0x3)
  {}

  lemma RegularStepped(g: Registers, c: Call, m: Registers, g': Registers)
    requires c.RegularChannel? && InRange(c)
    requires SetsOnlySample(g, c.channel, c.sampleTime, m) && SetsOnlyRank(m, c.rank, c.channel, g')
    ensures Stepped(g, c, g')
  {
    hide Rank, SampleTime, Slot, InjectedCount, Length, Spare;
  }

  lemma InjectedTook(g: Registers, c: Call, m: Registers, g': Registers)
    requires c.InjectedChannel? && InRange(c)
    requires SetsOnlySample(g, c.channel, c.sampleTime, m) && SetsSlot(m, Named(g, c), c.channel, g')
    requires Fits(g, c) ==> SetsOnlySlot(m, Named(g, c), c.channel, g')
    requires !NamesNext(g, c) ==> InjectedCount(g') == InjectedCount(m)
    ensures Took(g, c, g')
  {
    hide Rank, SampleTime, Slot, InjectedCount, Length, Spare, Named, Fits, NamesNext;
  }

  lemma SlotWritten(g: Registers, g': Registers, k: bv32, v: bv32, j: bv32)
    requires k < 4 && v < 32 && j < 4 && g'.jsqr == WithInjected(g.jsqr, k, v)
    ensures Slot(g', j) == if j == k then v else Slot(g, j)
    ensures InjectedCount(g') == InjectedCount(g) && Above(g'.jsqr, 22) == Above(g.jsqr, 22)
  {
    hide Slot5, Above, Field, WithInjected;
    InjectedWritten(g.jsqr, k, v, j);
    CountFromTop(g'.jsqr, g.jsqr);
  }

  lemma NamedInRange(g: Registers, c: Call)
    requires c.InjectedChannel? && InRange(c)
    ensures Named(g, c) < 7
    ensures Fits(g, c) <==> Named(g, c) < 4
    ensures NamesNext(g, c) <==> Named(g, c) == 4
  {
    hide Field, Position;
    CountRange(g);
    PositionRange(c.rank, InjectedCount(g));
  }

  lemma PositionRange(rank: bv32, count: bv32)
    requires 1 <= rank <= 4 && 1 <= count <= 4
    ensures Position(rank, count) < 7
    ensures rank <= count <==> Position(rank, count) < 4
    ensures rank == count + 1 <==> Position(rank, count) == 4
  {}

  lemma InitStepped(g: Registers, c: Call)
    requires c.Init? && InRange(c)
    ensures Stepped(g, c, g.(sqr1 := WithLength(g.sqr1, c.length)))
  {
    hide SampleTime, Slot, Slot5, InjectedCount, Above, WithLength, Field;
    var g' := g.(sqr1 := WithLength(g.sqr1, c.length));
    LengthField(g.sqr1, c.length);
    SlotFrame(g, g', 0);
    forall r: bv32 | 1 <= r <= 16
      ensures Rank(g', r) == Rank(g, r)
    {
      if r >= 13 { LengthKeepsSlots(g.sqr1, c.length, r - 13); }
    }
    forall ch: bv32 | ch < 18 ensures SampleTime(g', ch) == SampleTime(g, ch) { SampleTimeFrame(g, g', ch); }
    forall k: bv32 | k < 4 ensures Slot(g', k) == Slot(g, k) { SlotFrame(g, g', k); }
  }

  lemma CountStepped(g: Registers, c: Call)
    requires c.InjectedLength? && InRange(c)
    ensures Stepped(g, c, g.(jsqr := WithCount(g.jsqr, c.length)))
  {
    hide SampleTime, Rank, Slot5, Length, Above, WithCount, Field;
    var g' := g.(jsqr := WithCount(g.jsqr, c.length));
    CountField(g.jsqr, c.length);
    forall k: bv32 | k < 4 ensures Slot(g', k) == Slot(g, k) { CountKeepsSlots(g.jsqr, c.length, k); }
    forall r: bv32 | 1 <= r <= 16 ensures Rank(g', r) == Rank(g, r) { RankFrame(g, g', r); }
    forall ch: bv32 | ch < 18 ensures SampleTime(g', ch) == SampleTime(g, ch) { SampleTimeFrame(g, g', ch); }
    LengthFrame(g, g');
  }

  lemma LengthFrame(g: Registers, g': Registers)
    requires g.sqr1 == g'.sqr1
    ensures Length(g) == Length(g')
  {}

  /** What configuring an injected rank writes, whether or not the rank is within the length. */
  function WithInjectedRank(g: Registers, c: Call): Registers
    requires c.InjectedChannel? && InRange(c)
  {
    NamedInRange(g, c);
    var m := WithSampleTime(g, c.channel, c.sampleTime);
    m.(jsqr := WithInjected(m.jsqr, Named(g, c), c.channel))
  }

  // ----- The driver -----

  /** The read, clear, set and write-back steps on a register of 3-bit or 5-bit slots. */
  method ReplaceSlot3(w: bv32, i: bv32, v: bv32) returns (tmp: bv32)
    requires i < 10
    ensures tmp == WithSlot3(w, i, v)
  {
    tmp := w;
    var mask: bv32 := 0x7 << (3 * i);
    tmp := tmp & !mask;
    mask := v << (3 * i);
    tmp := tmp | mask;
  }

  method ReplaceSlot5(w: bv32, i: bv32, v: bv32) returns (tmp: bv32)
    requires i < 6
    ensures tmp == WithSlot5(w, i, v)
  {
    tmp := w;
    var mask: bv32 := 0x1F << (5 * i);
    tmp := tmp & !mask;
    mask := v << (5 * i);
    tmp := tmp | mask;
  }

  class AdcUnit {
    var sqr1: bv32
    var sqr2: bv32
    var sqr3: bv32
    var smpr1: bv32
    var smpr2: bv32
    var jsqr: bv32

    function Regs(): Registers
      reads this
    {
      Registers(sqr1, sqr2, sqr3, smpr1, smpr2, jsqr)
    }

    /** The part of ADC_Init that writes SQR1. */
    method Init(nbrOfChannel: bv32)
      requires 1 <= nbrOfChannel <= 16
      modifies this
      ensures var c := Call.Init(nbrOfChannel); Stepped(old(Regs()), c, Regs()) && Took(old(Regs()), c, Regs())
    {
      hide Stepped, Took;
      ghost var g := Regs();
      InitStepped(Regs(), Call.Init(nbrOfChannel));
      var tmp := sqr1;
      tmp := tmp & 0xFF0F_FFFF;
      tmp := tmp | ((nbrOfChannel - 1) << 20);
      sqr1 := tmp;
      SteppedTook(g, Call.Init(nbrOfChannel), Regs());
    }

    method WriteSampleTime(channel: bv32, sampleTime: bv32)
      requires channel < 18
      modifies this
      ensures Regs() == WithSampleTime(old(Regs()), channel, sampleTime)
    {
      hide WithSlot3;
      if channel > 9 {
        smpr1 := ReplaceSlot3(smpr1, channel - 10, sampleTime);
      } else {
        smpr2 := ReplaceSlot3(smpr2, channel, sampleTime);
      }
    }

    method WriteRank(channel: bv32, rank: bv32)
      requires 1 <= rank <= 16
      modifies this
      ensures Regs() == WithRank(old(Regs()), rank, channel)
    {
      hide WithSlot5;
      if rank < 7 {
        sqr3 := ReplaceSlot5(sqr3, rank - 1, channel);
      } else if rank < 13 {
        sqr2 := ReplaceSlot5(sqr2, rank - 7, channel);
      } else {
        sqr1 := ReplaceSlot5(sqr1, rank - 13, channel);
      }
    }

    method RegularChannelConfig(channel: bv32, rank: bv32, sampleTime: bv32)
      requires channel < 18 && 1 <= rank <= 16 && sampleTime < 8
      modifies this
      ensures var c := RegularChannel(channel, rank, sampleTime);
        Stepped(old(Regs()), c, Regs()) && Took(old(Regs()), c, Regs())
    {
      hide Took, Stepped, SetsOnlySample, SetsOnlyRank, WithSampleTime, WithRank;
      ghost var g := Regs();
      WriteSampleTime(channel, sampleTime);
      SamplePart(g, channel, sampleTime);
      ghost var m := Regs();
      WriteRank(channel, rank);
      RankPart(m, rank, channel);
      RegularStepped(g, RegularChannel(channel, rank, sampleTime), m, Regs());
      SteppedTook(g, RegularChannel(channel, rank, sampleTime), Regs());
    }

    /** Within the stored length the rank's slot is set; beyond it JSQR still gets the channel, but at
        a position that is no slot. */
    method InjectedChannelConfig(channel: bv32, rank: bv32, sampleTime: bv32)
      requires channel < 18 && 1 <= rank <= 4 && sampleTime < 8
      modifies this
      ensures var c := InjectedChannel(channel, rank, sampleTime);
        Regs() == WithInjectedRank(old(Regs()), c) && Took(old(Regs()), c, Regs())
      ensures FiveBitsSet(old(jsqr), RankPosition(rank, StoredLength(old(jsqr))), channel, jsqr)
    {
      hide Took, WithSampleTime, WithInjected, Named, StoredCount, Position, FiveBitsSet, RankPosition, StoredLength;
      ghost var c := InjectedChannel(channel, rank, sampleTime);
      NamedInRange(Regs(), c);
      InjectedRankTook(Regs(), c);
      NamedPosition(Regs(), c);
      SampleTimeKeepsCount(Regs(), c);
      NamedFromWord(Regs(), c);
      FiveBits(jsqr, Named(Regs(), c), channel);
      WriteSampleTime(channel, sampleTime);
      var tmp := jsqr;
      jsqr := WithInjected(tmp, Position(rank, StoredCount(tmp)), channel);
    }

    method InjectedSequencerLengthConfig(length: bv32)
      requires 1 <= length <= 4
      modifies this
      ensures var c := InjectedLength(length); Stepped(old(Regs()), c, Regs()) && Took(old(Regs()), c, Regs())
    {
      hide Stepped, Took;
      ghost var g := Regs();
      CountStepped(Regs(), InjectedLength(length));
      var tmp := jsqr;
      tmp := tmp & 0xFFCF_FFFF;
      tmp := tmp | ((length - 1) << 20);
      jsqr := tmp;
      SteppedTook(g, InjectedLength(length), Regs());
    }
  }

  /** The length field as the code extracts it in place. */
  function StoredCount(jsqr: bv32): bv32 {
    ((jsqr & 0x0030_0000) >> 20) + 1
  }

  lemma NamedPosition(g: Registers, c: Call)
    requires c.InjectedChannel?
    ensures Position(c.rank, StoredCount(g.jsqr)) == Named(g, c)
  {
    hide StoredCount, Field, Position;
    CountBits(g.jsqr);
  }

  lemma NamedFromWord(g: Registers, c: Call)
    requires c.InjectedChannel?
    ensures Named(g, c) == RankPosition(c.rank, StoredLength(g.jsqr))
  {
    hide Field, Position, RankPosition, StoredLength;
    LengthStored(g.jsqr);
    SamePosition(c.rank, StoredLength(g.jsqr));
  }

  lemma LengthStored(w: bv32)
    ensures Field(w, 20, 0x3) + 1 == StoredLength(w)
  {}

  lemma SamePosition(rank: bv32, length: bv32)
    ensures Position(rank, length) == RankPosition(rank, length)
  {}

  lemma CountBits(w: bv32)
    ensures StoredCount(w) == Field(w, 20, 0x3) + 1
  {}

  lemma SampleTimeKeepsCount(g: Registers, c: Call)
    requires c.InjectedChannel? && InRange(c)
    ensures WithSampleTime(g, c.channel, c.sampleTime).jsqr == g.jsqr
  {
    hide WithSlot3;
  }

  lemma InjectedPart(m: Registers, k: bv32, ch: bv32)
    requires k < 7 && ch < 32
    ensures var g' := m.(jsqr := WithInjected(m.jsqr, k, ch));
      && SetsSlot(m, k, ch, g')
      && (k < 4 ==> SetsOnlySlot(m, k, ch, g'))
      && (k != 4 ==> InjectedCount(g') == InjectedCount(m))
  {
    hide Rank, SampleTime, Slot, InjectedCount, Length, Spare, WithInjected;
    if k < 4 { SlotPart(m, k, ch); } else { BeyondPart(m, k, ch); }
  }

  lemma InjectedRankTook(g: Registers, c: Call)
    requires c.InjectedChannel? && InRange(c)
    ensures Took(g, c, WithInjectedRank(g, c))
  {
    hide Took, SetsOnlySample, SetsOnlySlot, SetsSlot, WithSampleTime, WithInjected, Named, Fits, NamesNext,
      InjectedCount;
    var m := WithSampleTime(g, c.channel, c.sampleTime);
    NamedInRange(g, c);
    SamplePart(g, c.channel, c.sampleTime);
    InjectedPart(m, Named(g, c), c.channel);
    InjectedTook(g, c, m, WithInjectedRank(g, c));
  }
}
