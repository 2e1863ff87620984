/** Priority: the two encoders of interrupt priorities and the decoder. Four priority bits are
implemented; a group says how many of them are pre-emption bits. */
module Priority {

  function PreemptBits(group: bv32): (n: bv32)
    ensures n <= 4
  {
    var g := group & 0x07;
    if 7 - g > 4 then 4 else 7 - g
  }

  function SubBits(group: bv32): (n: bv32)
    ensures n <= 4
  {
    var g := group & 0x07;
    if g + 4 < 7 then 0 else g - 7 + 4
  }

  /** The low `n` bits. */
  function Low(n: bv32): bv32
    requires n <= 4
  {
    (1 << n) - 1
  }

  function Encode(group: bv32, preempt: bv32, sub: bv32): bv32 {
    ((preempt & Low(PreemptBits(group))) << SubBits(group)) | (sub & Low(SubBits(group)))
  }

  function Decode(priority: bv32, group: bv32): (bv32, bv32) {
    ((priority >> SubBits(group)) & Low(PreemptBits(group)), priority & Low(SubBits(group)))
  }

  /** Groups 0 to 3 have four pre-emption bits, and each group from 4 on turns one of them into a
      sub-priority bit. */
  lemma BitsByGroup(group: bv32)
    ensures group & 0x7 <= 3 ==> PreemptBits(group) == 4 && SubBits(group) == 0
    ensures group & 0x7 > 3 ==> PreemptBits(group) == 7 - (group & 0x7) && SubBits(group) == (group & 0x7) - 3
  {}

  lemma EncodedByGroup(group: bv32, preempt: bv32, sub: bv32)
    ensures group & 0x7 <= 3 ==> Encode(group, preempt, sub) == preempt & 0xF
    ensures group & 0x7 == 4 ==> Encode(group, preempt, sub) == ((preempt & 0x7) << 1) | (sub & 0x1)
    ensures group & 0x7 == 5 ==> Encode(group, preempt, sub) == ((preempt & 0x3) << 2) | (sub & 0x3)
    ensures group & 0x7 == 6 ==> Encode(group, preempt, sub) == ((preempt & 0x1) << 3) | (sub & 0x7)
    ensures group & 0x7 == 7 ==> Encode(group, preempt, sub) == sub & 0xF
  {}

  /** Decoding gives back what was encoded, up to the widths of the two fields. */
  lemma DecodeEncode(group: bv32, preempt: bv32, sub: bv32)
    ensures Decode(Encode(group, preempt, sub), group)
         == (preempt & Low(PreemptBits(group)), sub & Low(SubBits(group)))
  {}

  /** Encoding what was decoded gives back the four implemented bits. */
  lemma EncodeDecode(group: bv32, priority: bv32)
    ensures Encode(group, Decode(priority, group).0, Decode(priority, group).1) == priority & 0xF
  {}

  predicate InRange(group: bv32, preempt: bv32, sub: bv32) {
    preempt <= Low(PreemptBits(group)) && sub <= Low(SubBits(group))
  }

  /** Lexicographic order of pre-emption priority and sub-priority. */
  predicate Before(p: bv32, s: bv32, p': bv32, s': bv32) {
    p < p' || (p == p' && s < s')
  }

  /** Encoding preserves the lexicographic order of pre-emption priority and sub-priority. */
  lemma EncodeKeepsOrder(group: bv32, p: bv32, s: bv32, p': bv32, s': bv32)
    requires InRange(group, p, s) && InRange(group, p', s')
    ensures Encode(group, p, s) < Encode(group, p', s') <==> Before(p, s, p', s')
  {}

  // ----- The encoder inside NVIC_Init -----

  function GroupOf(aircr: bv32): bv32 {
    (aircr & 0x700) >> 8
  }

  /** The byte NVIC_Init stores; the groups NVIC_PriorityGroupConfig accepts are 3 to 7. */
  function InitByte(aircr: bv32, preempt: bv8, sub: bv8): bv8
    requires GroupOf(aircr) >= 3
  {
    var t := (0x700 - (aircr & 0x700)) >> 8;
    GroupShift(aircr);
    var tmppre := 0x4 - t;
    var tmpsub: bv32 := 0x0F >> t;
    var p := ((preempt as bv32 << tmppre) | (sub as bv32 & tmpsub)) << 4;
    (p & 0xFF) as bv8
  }

  lemma GroupShift(aircr: bv32)
    requires GroupOf(aircr) >= 3
    ensures (0x700 - (aircr & 0x700)) >> 8 <= 4 && 0x4 - ((0x700 - (aircr & 0x700)) >> 8) <= 4
  {}

  /** The byte NVIC_SetPriority stores. */
  function PriorityByte(priority: bv32): bv8 {
    ((priority << 4) & 0xFF) as bv8
  }

  lemma PriorityByteBits(priority: bv32)
    ensures PriorityByte(priority) as bv32 == (priority & 0xF) << 4
  {}

  /** Both ways of setting a priority store the same byte, also when the pre-emption value is too wide. */
  lemma EncodersAgree(aircr: bv32, preempt: bv8, sub: bv8)
    requires GroupOf(aircr) >= 3
    ensures InitByte(aircr, preempt, sub)
         == PriorityByte(Encode(GroupOf(aircr), preempt as bv32, sub as bv32))
  {}

  /** What NVIC_GetPriority returns for a stored byte. */
  function Stored(b: bv8): bv32 {
    b as bv32 >> 4
  }

  lemma StoredEncoding(e: bv32)
    requires e < 16
    ensures Stored(PriorityByte(e)) == e
  {}

  lemma EncodingFits(group: bv32, preempt: bv32, sub: bv32)
    ensures Encode(group, preempt, sub) < 16
  {}

  /** The priorities given to NVIC_Init can be read back, up to the widths of the fields. */
  lemma InitThenDecode(aircr: bv32, preempt: bv8, sub: bv8)
    requires GroupOf(aircr) >= 3
    ensures var g := GroupOf(aircr);
      Decode(Stored(InitByte(aircr, preempt, sub)), g)
        == (preempt as bv32 & Low(PreemptBits(g)), sub as bv32 & Low(SubBits(g)))
  {
    hide InitByte, PriorityByte, Stored, Encode, Decode, Low, PreemptBits, SubBits;
    var g := GroupOf(aircr);
    EncodersAgree(aircr, preempt, sub);
    EncodingFits(g, preempt as bv32, sub as bv32);
    StoredEncoding(Encode(g, preempt as bv32, sub as bv32));
    DecodeEncode(g, preempt as bv32, sub as bv32);
  }

  // ----- The order of the stored bytes -----

  function EncodeBytes(group: bv32, preempt: bv8, sub: bv8): bv32 {
    Encode(group, preempt as bv32, sub as bv32)
  }

  predicate BytesInRange(group: bv32, preempt: bv8, sub: bv8) {
    InRange(group, preempt as bv32, sub as bv32)
  }

  predicate BytesBefore(p: bv8, s: bv8, p': bv8, s': bv8) {
    p < p' || (p == p' && s < s')
  }

  predicate Lower(b: bv8, b': bv8) {
    b < b'
  }

  predicate LowerCode(e: bv32, e': bv32) {
    e < e'
  }

  lemma WidenedOrder(p: bv8, s: bv8, p': bv8, s': bv8)
    ensures Before(p as bv32, s as bv32, p' as bv32, s' as bv32) == BytesBefore(p, s, p', s')
  {}

  lemma CodeOrder(group: bv32, p: bv32, s: bv32, p': bv32, s': bv32)
    requires InRange(group, p, s) && InRange(group, p', s')
    ensures LowerCode(Encode(group, p, s), Encode(group, p', s')) == Before(p, s, p', s')
  {
    EncodeKeepsOrder(group, p, s, p', s');
  }

  lemma EncodeBytesKeepsOrder(group: bv32, p: bv8, s: bv8, p': bv8, s': bv8)
    requires BytesInRange(group, p, s) && BytesInRange(group, p', s')
    ensures LowerCode(EncodeBytes(group, p, s), EncodeBytes(group, p', s')) == BytesBefore(p, s, p', s')
  {
    hide Encode, InRange, Before, LowerCode, BytesBefore;
    CodeOrder(group, p as bv32, s as bv32, p' as bv32, s' as bv32);
    WidenedOrder(p, s, p', s');
  }

  predicate FourBits(e: bv32) {
    e < 16
  }

  lemma ByteOrder(e: bv32, e': bv32)
    requires FourBits(e) && FourBits(e')
    ensures Lower(PriorityByte(e), PriorityByte(e')) == LowerCode(e, e')
  {}

  /** Of two interrupts with in-range priorities the one with the lower pre-emption priority, and then
      the lower sub-priority, gets the lower byte. */
  lemma InitKeepsOrder(aircr: bv32, p: bv8, s: bv8, p': bv8, s': bv8)
    requires GroupOf(aircr) >= 3
    requires BytesInRange(GroupOf(aircr), p, s) && BytesInRange(GroupOf(aircr), p', s')
    ensures Lower(InitByte(aircr, p, s), InitByte(aircr, p', s')) == BytesBefore(p, s, p', s')
  {
    hide InitByte, PriorityByte, EncodeBytes, BytesInRange, GroupOf, BytesBefore, Lower, LowerCode, FourBits;
    var g := GroupOf(aircr);
    BytesAgree(aircr, p, s);
    BytesAgree(aircr, p', s');
    ByteOrder(EncodeBytes(g, p, s), EncodeBytes(g, p', s'));
    EncodeBytesKeepsOrder(g, p, s, p', s');
  }

  lemma BytesAgree(aircr: bv32, p: bv8, s: bv8)
    requires GroupOf(aircr) >= 3
    ensures FourBits(EncodeBytes(GroupOf(aircr), p, s))
    ensures InitByte(aircr, p, s) == PriorityByte(EncodeBytes(GroupOf(aircr), p, s))
  {
    hide InitByte, PriorityByte, Encode, GroupOf;
    EncodersAgree(aircr, p, s);
    EncodingFits(GroupOf(aircr), p as bv32, s as bv32);
  }
}
