/** Remap: the alternate-function remap register AFIO_MAPR and its three code formats. */
module Remap {
  import opened Runs

  /** The remap codes of MAPR: all codes of the interface with bit 31 clear. */
  predicate IsCode(r: bv32) {
    IsLowCode(r) || IsPairCode(r) || IsHighCode(r) || IsSwjCode(r)
  }

  /** One bit in the lower half-word. */
  predicate IsLowCode(r: bv32) {
    || r == 0x0000_0001 || r == 0x0000_0002 || r == 0x0000_0004 || r == 0x0000_0008
    || r == 0x0000_1000 || r == 0x0000_8000
  }

  /** Two bits in the lower half-word, at the position in bits 19:16. */
  predicate IsPairCode(r: bv32) {
    || r == 0x0014_0010 || r == 0x0014_0030 || r == 0x0016_0040 || r == 0x0016_00C0
    || r == 0x0018_0100 || r == 0x0018_0200 || r == 0x0018_0300
    || r == 0x001A_0800 || r == 0x001A_0C00 || r == 0x001D_4000 || r == 0x001D_6000
  }

  /** Bits of the upper half-word; the SPI3 code 0x00201100 covers a debug-port bit as well. */
  predicate IsHighCode(r: bv32) {
    || r == 0x0020_0001 || r == 0x0020_0002 || r == 0x0020_0004 || r == 0x0020_0008
    || r == 0x0020_0010 || r == 0x0020_0020 || r == 0x0020_0040
    || r == 0x0020_1100 || r == 0x0020_2000 || r == 0x0020_4000
  }

  predicate IsSwjCode(r: bv32) {
    r == 0x0030_0100 || r == 0x0030_0200 || r == 0x0030_0400
  }

  datatype Call = Call(remap: bv32, enable: bool)

  // ----- The formats, as GPIO_PinRemapConfig tells them apart -----

  predicate NamesDebugPort(remap: bv32) {
    remap & 0x0030_0000 == 0x0030_0000
  }

  predicate NamesPair(remap: bv32) {
    remap & 0x0010_0000 == 0x0010_0000
  }

  lemma ShiftIsSmall(remap: bv32)
    requires IsCode(remap)
    ensures (remap >> 21) * 16 == if remap & 0x0020_0000 != 0 then 16 else 0
  {}

  /** The bits a code sets when enabled. */
  function Setting(remap: bv32): bv32
    requires IsCode(remap)
  {
    ShiftIsSmall(remap);
    (remap & 0xFFFF) << ((remap >> 21) * 16)
  }

  /** The bits the branch taken for a code clears. */
  function Mask(remap: bv32): bv32
    requires IsCode(remap)
  {
    if NamesDebugPort(remap) then 0x0F00_0000
    else if NamesPair(remap) then 3 << ((remap & 0x000F_0000) >> 16)
    else Setting(remap)
  }

  /** The bits of `w` in the field `f`. */
  function Part(w: bv32, f: bv32): bv32 {
    w & f
  }

  /** All bits but the debug-port bits 27:24. */
  function Visible(w: bv32): bv32 {
    w & 0xF0FF_FFFF
  }

  /** The field a call names, and the value it gives the field. */
  function Covered(c: Call): bv32
    requires IsCode(c.remap)
  {
    Visible(Mask(c.remap))
  }

  function Value(c: Call): bv32
    requires IsCode(c.remap)
  {
    if c.enable then Visible(Setting(c.remap)) else 0
  }

  /** `w` with the bits of `field` replaced by `v`. */
  function Merged(w: bv32, field: bv32, v: bv32): bv32 {
    (w & !field) | v
  }

  /** Outside bits 27:24 the call's field takes the call's value and all else stays. */
  predicate Configured(mapr: bv32, c: Call, mapr': bv32) {
    IsCode(c.remap) && Visible(mapr') == Visible(Merged(mapr, Covered(c), Value(c)))
  }

  /** The bits of `field` have become `v`; all others outside 27:24 are kept. */
  predicate FieldBecame(mapr: bv32, field: bv32, v: bv32, mapr': bv32) {
    Part(mapr', field) == v && Rest(mapr', field) == Rest(mapr, field)
  }

  /** The bits outside `field` and outside 27:24. */
  function Rest(w: bv32, field: bv32): bv32 {
    (w & !field) & 0xF0FF_FFFF
  }

  // What each format promises of the register itself. A low code names its own bits.
  predicate LowSaid(mapr: bv32, remap: bv32, enable: bool, mapr': bv32) {
    FieldBecame(mapr, remap, if enable then remap else 0, mapr')
  }

  /** A pair code names the two bits from the position in its bits 19:16 on. */
  predicate PairSaid(mapr: bv32, remap: bv32, enable: bool, mapr': bv32) {
    FieldBecame(mapr, 3 << ((remap >> 16) & 0xF), if enable then remap & 0xFFFF else 0, mapr')
  }

  /** A high code names its lower half in the upper half-word. */
  predicate HighSaid(mapr: bv32, remap: bv32, enable: bool, mapr': bv32) {
    FieldBecame(mapr, (remap & 0xF0FF) << 16, if enable then (remap & 0xF0FF) << 16 else 0, mapr')
  }

  /** An SWJ code names bits 27:24 alone. */
  predicate SwjSaid(mapr: bv32, mapr': bv32) {
    FieldBecame(mapr, 0, 0, mapr')
  }

  predicate AsCodeSays(mapr: bv32, remap: bv32, enable: bool, mapr': bv32) {
    && (IsLowCode(remap) ==> LowSaid(mapr, remap, enable, mapr'))
    && (IsPairCode(remap) ==> PairSaid(mapr, remap, enable, mapr'))
    && (IsHighCode(remap) ==> HighSaid(mapr, remap, enable, mapr'))
    && (IsSwjCode(remap) ==> SwjSaid(mapr, mapr'))
  }

  /** Bits 27:24: an SWJ code gives them its value, every other code sets them all. */
  predicate DebugPortSaid(remap: bv32, enable: bool, mapr': bv32) {
    mapr' & 0x0F00_0000
      == if !IsSwjCode(remap) then 0x0F00_0000 else if enable then (remap & 0xF00) << 16 else 0
  }

  function Cleared(mapr: bv32, mask: bv32): bv32 {
    (mapr & !mask) | 0x0F00_0000
  }

  function Or(w: bv32, v: bv32): bv32 {
    w | v
  }

  class Afio {
    var mapr: bv32

    method PinRemapConfig(remap: bv32, enable: bool)
      requires IsCode(remap)
      modifies this
      ensures Configured(old(mapr), Call(remap, enable), mapr)
      ensures AsCodeSays(old(mapr), remap, enable, mapr)
      ensures DebugPortSaid(remap, enable, mapr)
    {
      hide Configured, AsCodeSays, DebugPortSaid, IsCode, Cleared, Visible, NamesDebugPort, NamesPair, Mask, Setting,
        Or;
      ghost var was := mapr;
      var tmpreg := mapr;
      if NamesDebugPort(remap) {
        tmpreg := Visible(tmpreg);
        mapr := Visible(mapr);
      } else if NamesPair(remap) {
        tmpreg := Cleared(tmpreg, PairMask(remap));
      } else {
        tmpreg := Cleared(tmpreg, Setting(remap));
      }
      MaskOf(remap);
      ghost var cleared := tmpreg;
      Remapped(was, tmpreg, Call(remap, enable));
      if enable {
        tmpreg := Or(tmpreg, Setting(remap));
      }
      mapr := tmpreg;
      CodeSays(was, Call(remap, enable), mapr);
      DebugPortFollows(was, cleared, Call(remap, enable));
    }
  }

  function PairMask(remap: bv32): bv32 {
    3 << ((remap & 0x000F_0000) >> 16)
  }

  lemma MaskOf(remap: bv32)
    requires IsCode(remap)
    ensures Mask(remap) == if NamesDebugPort(remap) then 0x0F00_0000
                           else if NamesPair(remap) then PairMask(remap) else Setting(remap)
  {
    hide NamesDebugPort, NamesPair, Setting, IsCode;
  }

  lemma Remapped(mapr: bv32, cleared: bv32, c: Call)
    requires IsCode(c.remap)
    requires cleared == if NamesDebugPort(c.remap) then Visible(mapr) else Cleared(mapr, Mask(c.remap))
    ensures Configured(mapr, c, if c.enable then Or(cleared, Setting(c.remap)) else cleared)
  {
    hide IsCode, Setting, Mask, Cleared, NamesDebugPort, NamesPair, Visible, Merged, Or;
    MaskOf(c.remap);
    if NamesDebugPort(c.remap) {
      NothingCovered();
      DebugPortSet(mapr, Setting(c.remap));
      DebugPortCleared(mapr);
    } else {
      FieldSet(mapr, Mask(c.remap), Setting(c.remap));
      FieldCleared(mapr, Mask(c.remap));
    }
  }

  lemma FieldSet(mapr: bv32, mask: bv32, v: bv32)
    ensures Visible(Or(Cleared(mapr, mask), v)) == Visible(Merged(mapr, Visible(mask), Visible(v)))
  {}

  lemma FieldCleared(mapr: bv32, mask: bv32)
    ensures Visible(Cleared(mapr, mask)) == Visible(Merged(mapr, Visible(mask), 0))
  {
    hide Visible, Cleared, Merged, Or;
    FieldSet(mapr, mask, 0);
    OrNothing(Cleared(mapr, mask));
    NothingCovered();
  }

  lemma OrNothing(w: bv32)
    ensures Or(w, 0) == w
  {}

  lemma NothingCovered()
    ensures Visible(0x0F00_0000) == 0 && Visible(0) == 0
  {}

  lemma DebugPortSet(mapr: bv32, v: bv32)
    ensures Visible(Or(Visible(mapr), v)) == Visible(Merged(mapr, 0, Visible(v)))
  {}

  lemma DebugPortCleared(mapr: bv32)
    ensures Visible(Visible(mapr)) == Visible(Merged(mapr, 0, 0))
  {}

  // ----- Fields -----

  /** The fields of MAPR outside 27:24; SWJ codes name none. */
  predicate IsField(f: bv32) {
    || f == 0
    || f == 0x0000_0001 || f == 0x0000_0002 || f == 0x0000_0004 || f == 0x0000_0008
    || f == 0x0000_0030 || f == 0x0000_00C0 || f == 0x0000_0300 || f == 0x0000_0C00 || f == 0x0000_6000
    || f == 0x0000_1000 || f == 0x0000_8000
    || f == 0x0001_0000 || f == 0x0002_0000 || f == 0x0004_0000 || f == 0x0008_0000
    || f == 0x0010_0000 || f == 0x0020_0000 || f == 0x0040_0000
    || f == 0x1000_0000 || f == 0x2000_0000 || f == 0x4000_0000
  }

  lemma CoversAField(c: Call)
    requires IsCode(c.remap)
    ensures IsField(Covered(c))
  {}

  lemma FieldListApart(f: bv32, g: bv32)
    requires IsField(f) && IsField(g)
    ensures f == g || Part(f, g) == 0
  {}

  /** Two codes name the same field or disjoint ones. */
  lemma FieldsApart(c: Call, d: Call)
    requires IsCode(c.remap) && IsCode(d.remap)
    ensures Covered(c) == Covered(d) || Part(Covered(c), Covered(d)) == 0
  {
    hide Covered, IsField, IsCode, Part;
    CoversAField(c);
    CoversAField(d);
    FieldListApart(Covered(c), Covered(d));
  }

  lemma ValueInField(c: Call)
    requires IsCode(c.remap)
    ensures Part(Value(c), Covered(c)) == Value(c)
  {
    hide Covered, Visible, Setting, IsCode, Part;
    NothingInField(Covered(c));
    SettingInField(c);
  }

  lemma NothingInField(f: bv32)
    ensures Part(0, f) == 0
  {}

  lemma SettingInField(c: Call)
    requires IsCode(c.remap)
    ensures Part(Visible(Setting(c.remap)), Covered(c)) == Visible(Setting(c.remap))
  {}

  lemma FieldIsVisible(f: bv32)
    requires IsField(f)
    ensures Part(f, 0xF0FF_FFFF) == f
  {}

  lemma VisibleDecides(v: bv32, w: bv32, f: bv32)
    requires Visible(v) == Visible(w) && Part(f, 0xF0FF_FFFF) == f
    ensures Part(v, f) == Part(w, f)
  {
    MaskTwice(v, f, 0xF0FF_FFFF);
    MaskTwice(w, f, 0xF0FF_FFFF);
  }

  lemma MaskTwice(v: bv32, f: bv32, m: bv32)
    requires f & m == f
    ensures (v & m) & f == v & f
  {}

  lemma MergedInside(w: bv32, f: bv32, v: bv32)
    requires Part(v, f) == v
    ensures Part(Merged(w, f, v), f) == v
  {}

  lemma MergedElsewhere(w: bv32, g: bv32, v: bv32, f: bv32)
    requires Part(v, g) == v && Part(g, f) == 0
    ensures Part(Merged(w, g, v), f) == Part(w, f)
  {}

  /** A call sets its own field and leaves the field of every other code alone. */
  lemma FieldStep(mapr: bv32, d: Call, mapr': bv32, c: Call)
    requires IsCode(c.remap) && Configured(mapr, d, mapr')
    ensures Part(mapr', Covered(c)) == if Covered(d) == Covered(c) then Value(d) else Part(mapr, Covered(c))
  {
    hide IsCode, Covered, Value, Visible, Merged, IsField, Part;
    var f := Covered(c);
    CoversAField(c);
    FieldIsVisible(f);
    VisibleDecides(mapr', Merged(mapr, Covered(d), Value(d)), f);
    ValueInField(d);
    FieldsApart(d, c);
    if Covered(d) == f {
      MergedInside(mapr, f, Value(d));
    } else {
      MergedElsewhere(mapr, Covered(d), Value(d), f);
    }
  }

  // ----- What a code says -----

  lemma LowField(c: Call)
    requires IsLowCode(c.remap)
    ensures Covered(c) == c.remap && Value(c) == if c.enable then c.remap else 0
  {}

  lemma PairField(c: Call)
    requires IsPairCode(c.remap)
    ensures Covered(c) == 3 << ((c.remap >> 16) & 0xF) && Value(c) == if c.enable then c.remap & 0xFFFF else 0
  {}

  lemma HighField(c: Call)
    requires IsHighCode(c.remap)
    ensures Covered(c) == (c.remap & 0xF0FF) << 16
    ensures Value(c) == if c.enable then (c.remap & 0xF0FF) << 16 else 0
  {}

  lemma SwjField(c: Call)
    requires IsSwjCode(c.remap)
    ensures Covered(c) == 0 && Value(c) == 0
  {}

  lemma RestOfMerged(w: bv32, f: bv32, v: bv32)
    requires Part(v, f) == v
    ensures Rest(Merged(w, f, v), f) == Rest(w, f)
  {}

  lemma RestIsVisible(v: bv32, f: bv32)
    ensures Rest(v, f) == Visible(v) & !f
  {}

  lemma VisibleRest(v: bv32, w: bv32, f: bv32)
    requires Visible(v) == Visible(w)
    ensures Rest(v, f) == Rest(w, f)
  {
    hide Visible, Rest;
    RestIsVisible(v, f);
    RestIsVisible(w, f);
  }

  lemma FieldAndRest(mapr: bv32, c: Call, mapr': bv32)
    requires Configured(mapr, c, mapr')
    ensures FieldBecame(mapr, Covered(c), Value(c), mapr')
  {
    hide IsCode, Covered, Value, Visible, Merged, Part, Rest;
    FieldStep(mapr, c, mapr', c);
    ValueInField(c);
    VisibleRest(mapr', Merged(mapr, Covered(c), Value(c)), Covered(c));
    RestOfMerged(mapr, Covered(c), Value(c));
  }

  lemma LowSays(mapr: bv32, c: Call, mapr': bv32)
    requires IsLowCode(c.remap) && FieldBecame(mapr, Covered(c), Value(c), mapr')
    ensures LowSaid(mapr, c.remap, c.enable, mapr')
  {
    hide FieldBecame, Covered, Value, IsLowCode, IsCode;
    LowField(c);
  }

  lemma PairSays(mapr: bv32, c: Call, mapr': bv32)
    requires IsPairCode(c.remap) && FieldBecame(mapr, Covered(c), Value(c), mapr')
    ensures PairSaid(mapr, c.remap, c.enable, mapr')
  {
    hide FieldBecame, Covered, Value, IsPairCode, IsCode;
    PairField(c);
  }

  lemma HighSays(mapr: bv32, c: Call, mapr': bv32)
    requires IsHighCode(c.remap) && FieldBecame(mapr, Covered(c), Value(c), mapr')
    ensures HighSaid(mapr, c.remap, c.enable, mapr')
  {
    hide FieldBecame, Covered, Value, IsHighCode, IsCode;
    HighField(c);
  }

  lemma SwjSays(mapr: bv32, c: Call, mapr': bv32)
    requires IsSwjCode(c.remap) && FieldBecame(mapr, Covered(c), Value(c), mapr')
    ensures SwjSaid(mapr, mapr')
  {
    hide FieldBecame, Covered, Value, IsSwjCode, IsCode;
    SwjField(c);
  }

  lemma OnlySwjNamesDebugPort(remap: bv32)
    requires IsCode(remap)
    ensures NamesDebugPort(remap) == IsSwjCode(remap)
  {}

  lemma SetByOthers(mapr: bv32, mask: bv32, v: bv32)
    ensures Cleared(mapr, mask) & 0x0F00_0000 == 0x0F00_0000
    ensures Or(Cleared(mapr, mask), v) & 0x0F00_0000 == 0x0F00_0000
  {}

  lemma SetBySwj(mapr: bv32, remap: bv32)
    requires IsSwjCode(remap)
    ensures Visible(mapr) & 0x0F00_0000 == 0
    ensures Or(Visible(mapr), Setting(remap)) & 0x0F00_0000 == (remap & 0xF00) << 16
  {
    SwjSetting(remap);
    OrDebugPort(mapr, Setting(remap));
  }

  lemma SwjSetting(remap: bv32)
    requires IsSwjCode(remap)
    ensures Setting(remap) & 0x0F00_0000 == (remap & 0xF00) << 16
  {}

  lemma OrDebugPort(mapr: bv32, v: bv32)
    ensures Or(Visible(mapr), v) & 0x0F00_0000 == v & 0x0F00_0000
  {}

  lemma DebugPortFollows(mapr: bv32, cleared: bv32, c: Call)
    requires IsCode(c.remap)
    requires cleared == if NamesDebugPort(c.remap) then Visible(mapr) else Cleared(mapr, Mask(c.remap))
    ensures DebugPortSaid(c.remap, c.enable, if c.enable then Or(cleared, Setting(c.remap)) else cleared)
  {
    hide IsCode, IsSwjCode, Setting, Mask, Cleared, NamesDebugPort, Visible, Or;
    OnlySwjNamesDebugPort(c.remap);
    if NamesDebugPort(c.remap) {
      SetBySwj(mapr, c.remap);
    } else {
      SetByOthers(mapr, Mask(c.remap), Setting(c.remap));
    }
  }

  lemma CodeSays(mapr: bv32, c: Call, mapr': bv32)
    requires Configured(mapr, c, mapr')
    ensures AsCodeSays(mapr, c.remap, c.enable, mapr')
  {
    hide Covered, Value, FieldBecame, Visible, Merged, IsLowCode, IsPairCode, IsHighCode, IsSwjCode, LowSaid,
      PairSaid, HighSaid, SwjSaid;
    FieldAndRest(mapr, c, mapr');
    if IsLowCode(c.remap) { LowSays(mapr, c, mapr'); }
    if IsPairCode(c.remap) { PairSays(mapr, c, mapr'); }
    if IsHighCode(c.remap) { HighSays(mapr, c, mapr'); }
    if IsSwjCode(c.remap) { SwjSays(mapr, c, mapr'); }
  }

  // ----- Over any sequence of calls -----

  ghost predicate IsRun(values: seq<bv32>, calls: seq<Call>) {
    && |values| == |calls| + 1
    && forall i :: 0 <= i < |calls| ==> Configured(values[i], calls[i], values[i + 1])
  }

  predicate NamesField(d: Call, f: bv32) {
    IsCode(d.remap) && Covered(d) == f
  }

  function ValueOf(d: Call): bv32 {
    if IsCode(d.remap) then Value(d) else 0
  }

  /** Each field holds the value of the last call naming it, zero if that call disabled it,
      whatever formats the other calls used. */
  lemma FieldAfterRun(values: seq<bv32>, calls: seq<Call>, c: Call)
    requires IsRun(values, calls) && IsCode(c.remap)
    ensures Part(values[|calls|], Covered(c))
         == FinalValue(calls, d => NamesField(d, Covered(c)), ValueOf, Part(values[0], Covered(c)))
  {
    var f := Covered(c);
    hide IsCode, Covered, Value, Visible, Merged, Part;
    forall i | 0 <= i < |calls|
      ensures Part(values[i + 1], f) == if NamesField(calls[i], f) then ValueOf(calls[i]) else Part(values[i], f)
    {
      FieldStep(values[i], calls[i], values[i + 1], c);
    }
    LastWriter(values, calls, v => Part(v, f), d => NamesField(d, f), ValueOf);
  }
}
