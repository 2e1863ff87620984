/** AdcRuns: what any sequence of ADC configuration calls leaves behind. */
module AdcRuns {
  import opened Bits
  import opened Runs
  import opened Adc

  ghost predicate IsRun(states: seq<Registers>, calls: seq<Call>) {
    && |states| == |calls| + 1
    && forall i :: 0 <= i < |calls| ==> InRange(calls[i]) && Took(states[i], calls[i], states[i + 1])
  }

  /** No call of the run names the injected rank one above the length stored when it is made. */
  ghost predicate NoneNamesNext(states: seq<Registers>, calls: seq<Call>)
    requires |states| == |calls| + 1
  {
    forall i :: 0 <= i < |calls| ==> !NamesNext(states[i], calls[i])
  }

  // ----- The contract of a call leaves no bit open -----

  lemma SixSlotsDetermine(v: bv32, w: bv32)
    requires forall i: bv32 | i < 6 :: Slot5(v, i) == Slot5(w, i)
    requires Above(v, 30) == Above(w, 30)
    ensures v == w
  {
    assert Slot5(v, 0) == Slot5(w, 0) && Slot5(v, 1) == Slot5(w, 1) && Slot5(v, 2) == Slot5(w, 2);
    assert Slot5(v, 3) == Slot5(w, 3) && Slot5(v, 4) == Slot5(w, 4) && Slot5(v, 5) == Slot5(w, 5);
  }

  lemma FourSlotsDetermine(v: bv32, w: bv32)
    requires forall i: bv32 | i < 4 :: Slot5(v, i) == Slot5(w, i)
    requires Above(v, 20) == Above(w, 20)
    ensures v == w
  {
    assert Slot5(v, 0) == Slot5(w, 0) && Slot5(v, 1) == Slot5(w, 1);
    assert Slot5(v, 2) == Slot5(w, 2) && Slot5(v, 3) == Slot5(w, 3);
  }

  lemma TenSlotsDetermine(v: bv32, w: bv32)
    requires forall i: bv32 | i < 10 :: Slot3(v, i) == Slot3(w, i)
    requires Above(v, 30) == Above(w, 30)
    ensures v == w
  {
    assert Slot3(v, 0) == Slot3(w, 0) && Slot3(v, 1) == Slot3(w, 1) && Slot3(v, 2) == Slot3(w, 2);
    assert Slot3(v, 3) == Slot3(w, 3) && Slot3(v, 4) == Slot3(w, 4) && Slot3(v, 5) == Slot3(w, 5);
    assert Slot3(v, 6) == Slot3(w, 6) && Slot3(v, 7) == Slot3(w, 7) && Slot3(v, 8) == Slot3(w, 8);
    assert Slot3(v, 9) == Slot3(w, 9);
  }

  lemma EightSlotsDetermine(v: bv32, w: bv32)
    requires forall i: bv32 | i < 8 :: Slot3(v, i) == Slot3(w, i)
    requires Above(v, 24) == Above(w, 24)
    ensures v == w
  {
    assert Slot3(v, 0) == Slot3(w, 0) && Slot3(v, 1) == Slot3(w, 1) && Slot3(v, 2) == Slot3(w, 2);
    assert Slot3(v, 3) == Slot3(w, 3) && Slot3(v, 4) == Slot3(w, 4) && Slot3(v, 5) == Slot3(w, 5);
    assert Slot3(v, 6) == Slot3(w, 6) && Slot3(v, 7) == Slot3(w, 7);
  }

  lemma TopDetermined(v: bv32, w: bv32)
    requires Field(v, 20, 0xF) + 1 == Field(w, 20, 0xF) + 1 && Above(v, 24) == Above(w, 24)
    ensures Above(v, 20) == Above(w, 20)
  {}

  lemma CountDetermined(v: bv32, w: bv32)
    requires Field(v, 20, 0x3) + 1 == Field(w, 20, 0x3) + 1 && Above(v, 22) == Above(w, 22)
    ensures Above(v, 20) == Above(w, 20)
  {}

  /** Two states a call may lead to are the same registers, bit for bit. */
  lemma StepIsDeterministic(g: Registers, c: Call, a: Registers, b: Registers)
    requires Stepped(g, c, a) && Stepped(g, c, b)
    ensures a == b
  {
    hide Field, Slot5, Slot3, Above, Named, SetsRank, SetsSample;
    RegularDetermined(g, c, a, b);
    SamplesDetermined(g, c, a, b);
    forall k: bv32 | k < 4 ensures Slot5(a.jsqr, k) == Slot5(b.jsqr, k) {
      assert Slot(a, k) == Slot(b, k);
    }
    CountDetermined(a.jsqr, b.jsqr);
    FourSlotsDetermine(a.jsqr, b.jsqr);
  }

  lemma RegularDetermined(g: Registers, c: Call, a: Registers, b: Registers)
    requires Stepped(g, c, a) && Stepped(g, c, b)
    ensures a.sqr1 == b.sqr1 && a.sqr2 == b.sqr2 && a.sqr3 == b.sqr3
  {
    hide Field, Slot5, Slot3, Above, Named, SetsRank, SetsSample, Slot, SampleTime, InjectedCount;
    forall i: bv32 | i < 6 ensures Slot5(a.sqr3, i) == Slot5(b.sqr3, i) {
      assert Rank(a, i + 1) == Rank(b, i + 1);
      assert i + 1 - 1 == i;
    }
    forall i: bv32 | i < 6 ensures Slot5(a.sqr2, i) == Slot5(b.sqr2, i) {
      assert Rank(a, i + 7) == Rank(b, i + 7);
      assert i + 7 - 7 == i;
    }
    forall i: bv32 | i < 4 ensures Slot5(a.sqr1, i) == Slot5(b.sqr1, i) {
      assert Rank(a, i + 13) == Rank(b, i + 13);
      assert i + 13 - 13 == i;
    }
    SixSlotsDetermine(a.sqr3, b.sqr3);
    SixSlotsDetermine(a.sqr2, b.sqr2);
    TopDetermined(a.sqr1, b.sqr1);
    FourSlotsDetermine(a.sqr1, b.sqr1);
  }

  lemma SamplesDetermined(g: Registers, c: Call, a: Registers, b: Registers)
    requires Stepped(g, c, a) && Stepped(g, c, b)
    ensures a.smpr1 == b.smpr1 && a.smpr2 == b.smpr2
  {
    hide Field, Slot5, Slot3, Above, Named, SetsRank, SetsSample, Slot, Rank, InjectedCount, Length;
    forall i: bv32 | i < 8 ensures Slot3(a.smpr1, i) == Slot3(b.smpr1, i) {
      assert SampleTime(a, i + 10) == SampleTime(b, i + 10);
      assert i + 10 - 10 == i;
    }
    forall i: bv32 | i < 10 ensures Slot3(a.smpr2, i) == Slot3(b.smpr2, i) {
      assert SampleTime(a, i) == SampleTime(b, i);
    }
    EightSlotsDetermine(a.smpr1, b.smpr1);
    TenSlotsDetermine(a.smpr2, b.smpr2);
  }

  // ----- Last writers -----

  /** Each regular rank converts the channel of the last call naming the rank. */
  lemma RankAfterRun(states: seq<Registers>, calls: seq<Call>, r: bv32)
    requires IsRun(states, calls) && 1 <= r <= 16
    ensures Rank(states[|calls|], r)
         == FinalValue(calls, c => SetsRank(c, r), ChannelOf, Rank(states[0], r))
  {
    hide Rank, SampleTime, Slot, Length, InjectedCount, Spare, Named, Fits, NamesNext, InRange;
    forall i | 0 <= i < |calls|
      ensures Rank(states[i + 1], r) == if SetsRank(calls[i], r) then ChannelOf(calls[i]) else Rank(states[i], r)
    {
      assert Took(states[i], calls[i], states[i + 1]);
    }
    LastWriter(states, calls, g => Rank(g, r), c => SetsRank(c, r), ChannelOf);
  }

  /** Each channel has the sample time of the last call naming it, regular or injected. */
  lemma SampleTimeAfterRun(states: seq<Registers>, calls: seq<Call>, ch: bv32)
    requires IsRun(states, calls) && ch < 18
    ensures SampleTime(states[|calls|], ch)
         == FinalValue(calls, c => SetsSample(c, ch), SampleTimeOf, SampleTime(states[0], ch))
  {
    hide Rank, SampleTime, Slot, Length, InjectedCount, Spare, Named, Fits, NamesNext, InRange;
    forall i | 0 <= i < |calls|
      ensures SampleTime(states[i + 1], ch)
           == if SetsSample(calls[i], ch) then SampleTimeOf(calls[i]) else SampleTime(states[i], ch)
    {
      assert Took(states[i], calls[i], states[i + 1]);
    }
    LastWriter(states, calls, g => SampleTime(g, ch), c => SetsSample(c, ch), SampleTimeOf);
  }

  /** The regular length is that of the last ADC_Init. */
  lemma LengthAfterRun(states: seq<Registers>, calls: seq<Call>)
    requires IsRun(states, calls)
    ensures Length(states[|calls|]) == FinalValue(calls, (c: Call) => c.Init?, LengthOf, Length(states[0]))
  {
    hide Rank, SampleTime, Slot, Length, InjectedCount, Spare, Named, Fits, NamesNext, InRange;
    forall i | 0 <= i < |calls|
      ensures Length(states[i + 1]) == if calls[i].Init? then LengthOf(calls[i]) else Length(states[i])
    {
      assert Took(states[i], calls[i], states[i + 1]);
    }
    LastWriter(states, calls, Length, (c: Call) => c.Init?, LengthOf);
  }

  /** The injected length is that of the last call configuring it, unless a rank one above it was named. */
  lemma InjectedLengthAfterRun(states: seq<Registers>, calls: seq<Call>)
    requires IsRun(states, calls) && NoneNamesNext(states, calls)
    ensures InjectedCount(states[|calls|])
         == FinalValue(calls, (c: Call) => c.InjectedLength?, LengthOf, InjectedCount(states[0]))
  {
    hide Rank, SampleTime, Slot, Length, InjectedCount, Spare, Named, Fits, NamesNext, InRange;
    forall i | 0 <= i < |calls|
      ensures InjectedCount(states[i + 1])
           == if calls[i].InjectedLength? then LengthOf(calls[i]) else InjectedCount(states[i])
    {
      assert Took(states[i], calls[i], states[i + 1]) && !NamesNext(states[i], calls[i]);
    }
    LastWriter(states, calls, InjectedCount, (c: Call) => c.InjectedLength?, LengthOf);
  }

  function ChannelOf(c: Call): bv32 {
    if c.RegularChannel? || c.InjectedChannel? then c.channel else 0
  }

  function SampleTimeOf(c: Call): bv32 {
    if c.RegularChannel? || c.InjectedChannel? then c.sampleTime else 0
  }

  function LengthOf(c: Call): bv32 {
    if c.Init? || c.InjectedLength? then c.length else 0
  }

  // ----- The injected sequence -----

  predicate SetsInjected(c: Call, r: bv32) {
    c.InjectedChannel? && c.rank == r
  }

  /** While the length is not configured again, each injected rank converts the channel of the last
      call naming it: configuring ranks 1 to n once each, in any order, yields the requested list. */
  lemma InjectedRankAfterRun(states: seq<Registers>, calls: seq<Call>, r: bv32)
    requires IsRun(states, calls) && NoneNamesNext(states, calls)
    requires forall i :: 0 <= i < |calls| ==> !calls[i].InjectedLength?
    requires 1 <= r <= InjectedCount(states[0]) <= 4
    ensures InjectedCount(states[|calls|]) == InjectedCount(states[0])
    ensures InjectedRank(states[|calls|], r)
         == FinalValue(calls, c => SetsInjected(c, r), ChannelOf, InjectedRank(states[0], r))
  {
    hide Rank, SampleTime, Slot, Length, InjectedCount, Spare, InRange, Fits, NamesNext;
    var n := InjectedCount(states[0]);
    var k := r + 3 - n;
    CountStays(states, calls);
    SlotIndex(r, n);
    forall i | 0 <= i < |calls|
      ensures Slot(states[i + 1], k) == if SetsInjected(calls[i], r) then ChannelOf(calls[i]) else Slot(states[i], k)
    {
      assert Took(states[i], calls[i], states[i + 1]);
      if calls[i].InjectedChannel? { SameSlot(calls[i].rank, r, n); }
    }
    LastWriter(states, calls, g => Slot(g, k), c => SetsInjected(c, r), ChannelOf);
  }

  lemma {:induction false} CountStays(states: seq<Registers>, calls: seq<Call>)
    requires IsRun(states, calls) && NoneNamesNext(states, calls)
    requires forall i :: 0 <= i < |calls| ==> !calls[i].InjectedLength?
    ensures forall i :: 0 <= i < |states| ==> InjectedCount(states[i]) == InjectedCount(states[0])
  {
    hide Rank, SampleTime, Slot, Length, InjectedCount, Spare, InRange, Named, Fits, NamesNext;
    if calls != [] {
      var n := |calls| - 1;
      assert Took(states[n], calls[n], states[n + 1]) && !NamesNext(states[n], calls[n]);
      CountStays(states[..n + 1], calls[..n]);
    }
  }

  lemma SlotIndex(r: bv32, n: bv32)
    requires 1 <= r <= n <= 4
    ensures r + 3 - n < 4
  {}

  lemma SameSlot(q: bv32, r: bv32, n: bv32)
    ensures q + 3 - n == r + 3 - n <==> q == r
  {}

  /** Changing the length from n to m keeps the slots: rank r becomes rank r + m - n, so shrinking
      keeps the last m channels of the sequence. */
  lemma LengthChangeShiftsRanks(g: Registers, m: bv32, g': Registers, r: bv32)
    requires 1 <= m <= 4 && Stepped(g, InjectedLength(m), g')
    requires 1 <= r <= InjectedCount(g) <= 4 && InjectedCount(g) < r + m
    ensures InjectedCount(g') == m && 1 <= r + m - InjectedCount(g) <= m
    ensures InjectedRank(g', r + m - InjectedCount(g)) == InjectedRank(g, r)
  {
    hide Rank, SampleTime, Slot, Length, InjectedCount, Spare;
    ShiftedRank(r, m, InjectedCount(g));
  }

  lemma ShiftedRank(r: bv32, m: bv32, n: bv32)
    requires 1 <= m <= 4 && 1 <= r <= n <= 4 && n < r + m
    ensures 1 <= r + m - n <= m && r + m - n + 3 - m == r + 3 - n < 4
  {}

  /** Configuring an injected rank keeps the stored length, unless the rank is one above it and the
      channel's low bits differ from the length field they replace. */
  lemma LengthKeptIff(g: Registers, c: Call)
    requires c.InjectedChannel? && InRange(c)
    ensures InjectedCount(WithInjectedRank(g, c)) == InjectedCount(g)
       <==> !NamesNext(g, c) || LowCount(c.channel) == InjectedCount(g)
  {
    hide InjectedCount, WithInjected, WithSampleTime, Named, NamesNext, LowCount;
    NamedInRange(g, c);
    SampleTimeKeepsCount(g, c);
    if NamesNext(g, c) { OverwrittenCount(g, WithInjectedRank(g, c), c.channel); } else { InjectedRankTook(g, c); }
  }

  /** The length that the two low bits of a channel stand for. */
  function LowCount(channel: bv32): bv32 {
    (channel & 0x3) + 1
  }

  lemma OverwrittenCount(g: Registers, g': Registers, ch: bv32)
    requires g'.jsqr == WithInjected(g.jsqr, 4, ch)
    ensures InjectedCount(g') == LowCount(ch)
  {}

  /** A rank one above the stored length overwrites the length; every other rank keeps it, whatever
      the channel and the sample time. */
  lemma LengthKeptIffNotNext(g: Registers, rank: bv32)
    requires 1 <= rank <= 4
    ensures (forall ch: bv32, t: bv32 | ch < 18 && t < 8 ::
              InjectedCount(WithInjectedRank(g, InjectedChannel(ch, rank, t))) == InjectedCount(g))
       <==> rank != InjectedCount(g) + 1
  {
    hide InjectedCount, WithInjectedRank, LowCount;
    if rank == InjectedCount(g) + 1 {
      var ch := OtherLowCount(InjectedCount(g));
      LengthKeptIff(g, InjectedChannel(ch, rank, 0));
      assert InjectedCount(WithInjectedRank(g, InjectedChannel(ch, rank, 0))) != InjectedCount(g);
    } else {
      forall ch: bv32, t: bv32 | ch < 18 && t < 8
        ensures InjectedCount(WithInjectedRank(g, InjectedChannel(ch, rank, t))) == InjectedCount(g)
      {
        LengthKeptIff(g, InjectedChannel(ch, rank, t));
      }
    }
  }

  lemma OtherLowCount(count: bv32) returns (ch: bv32)
    ensures ch < 18 && LowCount(ch) != count
  {
    ch := if count == 1 then 1 else 0;
  }
}
