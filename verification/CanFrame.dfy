/** CanFrame: how messages, transmit mailboxes and receive mailboxes hold the same CAN frame. */
module CanFrame {

  // ----- The driver's message structures -----

  const ID_STANDARD: bv8 := 0x00
  const ID_EXTENDED: bv8 := 0x04
  const RTR_DATA: bv8 := 0x00
  const RTR_REMOTE: bv8 := 0x02

  datatype CanTxMsg = CanTxMsg(stdId: bv32, extId: bv32, ide: bv8, rtr: bv8, dlc: bv8, data: seq<bv8>)

  datatype CanRxMsg =
    CanRxMsg(stdId: bv32, extId: bv32, ide: bv8, rtr: bv8, dlc: bv8, data: seq<bv8>, fmi: bv8)

  /** What the parameter checks of CAN_Transmit ask of a message. The data length code is left
      unrestricted: the driver masks it. */
  predicate Sendable(msg: CanTxMsg) {
    && msg.ide in {ID_STANDARD, ID_EXTENDED}
    && msg.rtr in {RTR_DATA, RTR_REMOTE}
    && (msg.ide == ID_STANDARD ==> msg.stdId <= 0x7FF)
    && (msg.ide == ID_EXTENDED ==> msg.extId <= 0x1FFF_FFFF)
    && |msg.data| == 8
  }

  // ----- The controller's mailboxes -----

  const TXRQ: bv32 := 0x0000_0001

  function WithoutRequest(v: bv32): bv32 {
    v & 0xFFFF_FFFE
  }

  datatype TxMailBox = TxMailBox(tir: bv32, tdtr: bv32, tdlr: bv32, tdhr: bv32)

  datatype RxMailBox = RxMailBox(rir: bv32, rdtr: bv32, rdlr: bv32, rdhr: bv32)

  // ----- Frames: what travels on the bus -----

  datatype Frame = Frame(extended: bool, id: bv32, remote: bool, dlc: bv8, data: seq<bv8>)

  /** The frame a caller of CAN_Transmit asks for. */
  function FrameOfMessage(msg: CanTxMsg): Frame {
    Frame(msg.ide == ID_EXTENDED,
          if msg.ide == ID_EXTENDED then msg.extId else msg.stdId,
          msg.rtr == RTR_REMOTE,
          msg.dlc & 0x0F,
          msg.data)
  }

  /** The frame a caller of CAN_Receive is given. */
  function FrameOfReceived(msg: CanRxMsg): Frame {
    Frame(msg.ide == ID_EXTENDED,
          if msg.ide == ID_EXTENDED then msg.extId else msg.stdId,
          msg.rtr == RTR_REMOTE,
          msg.dlc,
          msg.data)
  }

  /** Byte `i` of a data register, byte 0 in the low bits. */
  function Byte(w: bv32, i: nat): bv8
    requires i < 4
  {
    if i == 0 then (w & 0xFF) as bv8
    else if i == 1 then ((w >> 8) & 0xFF) as bv8
    else if i == 2 then ((w >> 16) & 0xFF) as bv8
    else ((w >> 24) & 0xFF) as bv8
  }

  function Bytes(w: bv32): seq<bv8> {
    [Byte(w, 0), Byte(w, 1), Byte(w, 2), Byte(w, 3)]
  }

  // The identifier register: STID 31:21 or EXID 31:3, IDE bit 2, RTR bit 1.

  predicate HasExtendedId(idReg: bv32) {
    idReg & 0x4 != 0
  }

  predicate IsRemote(idReg: bv32) {
    idReg & 0x2 != 0
  }

  function StandardId(idReg: bv32): bv32 {
    idReg >> 21
  }

  function ExtendedId(idReg: bv32): bv32 {
    idReg >> 3
  }

  function FrameOfRegisters(idReg: bv32, dtReg: bv32, low: bv32, high: bv32): Frame {
    Frame(HasExtendedId(idReg),
          if HasExtendedId(idReg) then ExtendedId(idReg) else StandardId(idReg),
          IsRemote(idReg),
          (dtReg & 0xF) as bv8,
          Bytes(low) + Bytes(high))
  }

  /** The frame the controller puts on the bus for a transmit mailbox. */
  function FrameOfTx(b: TxMailBox): Frame {
    FrameOfRegisters(b.tir, b.tdtr, b.tdlr, b.tdhr)
  }

  function FrameOfRx(b: RxMailBox): Frame {
    FrameOfRegisters(b.rir, b.rdtr, b.rdlr, b.rdhr)
  }

  /** A receive mailbox holding what another node sent from transmit mailbox `b`: the request bit
      is not part of the frame, and the receiver adds its filter index and time stamp. */
  function OnArrival(b: TxMailBox, fmi: bv8, time: bv32): RxMailBox
    requires time < 0x1_0000
  {
    RxMailBox(WithoutRequest(b.tir), (b.tdtr & 0xF) | (fmi as bv32 << 8) | (time << 16), b.tdlr, b.tdhr)
  }

  // ----- Packing is undone by unpacking -----

  lemma BytesOfWord(d: seq<bv8>)
    requires |d| == 4
    ensures Bytes((d[3] as bv32 << 24) | (d[2] as bv32 << 16) | (d[1] as bv32 << 8) | d[0] as bv32) == d
  {}

  function StandardWord(id: bv32, rtr: bv32): bv32 {
    (id << 21) | rtr
  }

  function ExtendedWord(id: bv32, ide: bv32, rtr: bv32): bv32 {
    (id << 3) | ide | rtr
  }

  function WithRequest(v: bv32): bv32 {
    v | TXRQ
  }

  lemma StandardFlags(id: bv32, rtr: bv32)
    requires rtr & 2 == rtr
    ensures !HasExtendedId(WithRequest(StandardWord(id, rtr)))
    ensures IsRemote(WithRequest(StandardWord(id, rtr))) == (rtr != 0)
  {}

  lemma StandardIdPart(id: bv32, rtr: bv32)
    requires id <= 0x7FF && rtr & 2 == rtr
    ensures StandardId(WithRequest(StandardWord(id, rtr))) == id
  {}

  lemma ExtendedFlags(id: bv32, ide: bv32, rtr: bv32)
    requires ide == 4 && rtr & 2 == rtr
    ensures HasExtendedId(WithRequest(ExtendedWord(id, ide, rtr)))
    ensures IsRemote(WithRequest(ExtendedWord(id, ide, rtr))) == (rtr != 0)
  {}

  lemma ExtendedIdPart(id: bv32, ide: bv32, rtr: bv32)
    requires id <= 0x1FFF_FFFF && ide == 4 && rtr & 2 == rtr
    ensures ExtendedId(WithRequest(ExtendedWord(id, ide, rtr))) == id
  {}

  function DlcWord(tdtr: bv32, dlc: bv8): bv32 {
    (tdtr & 0xFFFF_FFF0) | (dlc & 0x0F) as bv32
  }

  lemma DlcWordHolds(tdtr: bv32, dlc: bv8)
    ensures DlcWord(tdtr, dlc) & 0xF == (dlc & 0x0F) as bv32
  {}

  function IdWord(msg: CanTxMsg): bv32 {
    if msg.ide == ID_STANDARD then StandardWord(msg.stdId, msg.rtr as bv32)
    else ExtendedWord(msg.extId, msg.ide as bv32, msg.rtr as bv32)
  }

  lemma IdeBit()
    ensures ID_EXTENDED as bv32 == 4
  {}

  lemma RtrBit(rtr: bv8)
    requires rtr in {RTR_DATA, RTR_REMOTE}
    ensures (rtr as bv32) & 2 == rtr as bv32
    ensures (rtr as bv32 != 0) == (rtr == RTR_REMOTE)
  {}

  lemma IdWordRequestsNothing(msg: CanTxMsg)
    requires Sendable(msg)
    ensures IdWord(msg) & TXRQ == 0
  {
    if msg.ide == ID_STANDARD {} else {}
  }

  function DataWord(data: seq<bv8>, i: nat): bv32
    requires i + 4 <= |data|
  {
    (data[i + 3] as bv32 << 24) | (data[i + 2] as bv32 << 16) | (data[i + 1] as bv32 << 8) | data[i] as bv32
  }

  lemma DataWords(data: seq<bv8>)
    requires |data| == 8
    ensures Bytes(DataWord(data, 0)) + Bytes(DataWord(data, 4)) == data
  {
    hide Bytes;
    BytesOfWord(data[..4]);
    BytesOfWord(data[4..]);
    assert data[4..][0] == data[4] && data[4..][1] == data[5] && data[4..][2] == data[6] && data[4..][3] == data[7];
  }

  lemma IdWordHeader(msg: CanTxMsg)
    requires Sendable(msg)
    ensures var tir := WithRequest(IdWord(msg));
      && HasExtendedId(tir) == (msg.ide == ID_EXTENDED)
      && IsRemote(tir) == (msg.rtr == RTR_REMOTE)
      && (msg.ide == ID_STANDARD ==> StandardId(tir) == msg.stdId)
      && (msg.ide == ID_EXTENDED ==> ExtendedId(tir) == msg.extId)
  {
    hide HasExtendedId, IsRemote, StandardId, ExtendedId, StandardWord, ExtendedWord, WithRequest;
    var rtr := msg.rtr as bv32;
    RtrBit(msg.rtr);
    if msg.ide == ID_STANDARD {
      StandardFlags(msg.stdId, rtr);
      StandardIdPart(msg.stdId, rtr);
    } else {
      IdeBit();
      ExtendedFlags(msg.extId, msg.ide as bv32, rtr);
      ExtendedIdPart(msg.extId, msg.ide as bv32, rtr);
    }
  }

  /** A mailbox loaded the way CAN_Transmit loads it holds the frame the caller asked for. */
  lemma LoadedFrame(msg: CanTxMsg, b: TxMailBox, tdtr: bv32)
    requires Sendable(msg)
    requires b == TxMailBox(IdWord(msg) | TXRQ, DlcWord(tdtr, msg.dlc),
                            DataWord(msg.data, 0), DataWord(msg.data, 4))
    ensures FrameOfTx(b) == FrameOfMessage(msg)
  {
    hide IdWord, DataWord, DlcWord, Bytes, HasExtendedId, IsRemote, StandardId, ExtendedId;
    IdWordHeader(msg);
    LoadedDlc(tdtr, msg.dlc);
    DataWords(msg.data);
  }

  lemma LoadedDlc(tdtr: bv32, dlc: bv8)
    ensures (DlcWord(tdtr, dlc) & 0xF) as bv8 == dlc & 0x0F
  {
    hide DlcWord;
    DlcWordHolds(tdtr, dlc);
  }

  lemma FlagBits(v: bv32)
    ensures HasExtendedId(WithoutRequest(v)) == HasExtendedId(v) && IsRemote(WithoutRequest(v)) == IsRemote(v)
  {}

  lemma IdBits(v: bv32)
    ensures ExtendedId(WithoutRequest(v)) == ExtendedId(v) && StandardId(WithoutRequest(v)) == StandardId(v)
  {}

  /** The time stamp is the upper half of TDTR. */
  function Untimed(tdtr: bv32): bv32 {
    tdtr & 0xFFFF
  }

  function Stamped(tdtr: bv32, stamp: bv32): bv32 {
    (tdtr & 0xFFFF) | (stamp & 0xFFFF_0000)
  }

  lemma StampBits(tdtr: bv32, stamp: bv32)
    ensures Stamped(tdtr, stamp) & 0xF == tdtr & 0xF
  {}

  lemma StampKeepsLow(tdtr: bv32, stamp: bv32)
    ensures Untimed(Stamped(tdtr, stamp)) == Untimed(tdtr)
  {
    calc {
      Untimed(Stamped(tdtr, stamp));
      ((tdtr & 0xFFFF) | (stamp & 0xFFFF_0000)) & 0xFFFF;
      { OtherHalf(tdtr, stamp, 0xFFFF, 0xFFFF_0000); }
      tdtr & 0xFFFF;
      Untimed(tdtr);
    }
  }

  lemma OtherHalf(v: bv32, w: bv32, m: bv32, n: bv32)
    requires m & n == 0
    ensures ((v & m) | (w & n)) & m == v & m
  {}

  /** Stamping the time leaves the frame alone. */
  lemma TimeStampIsNoFrame(b: TxMailBox, stamp: bv32)
    ensures FrameOfTx(b.(tdtr := Stamped(b.tdtr, stamp))) == FrameOfTx(b)
  {
    hide Stamped, Bytes, HasExtendedId, IsRemote, ExtendedId, StandardId;
    StampBits(b.tdtr, stamp);
  }

  lemma ArrivalTimeWord(tdtr: bv32, fmi: bv8, time: bv32)
    requires time < 0x1_0000
    ensures ((tdtr & 0xF) | (fmi as bv32 << 8) | (time << 16)) & 0xF == tdtr & 0xF
    ensures (((tdtr & 0xF) | (fmi as bv32 << 8) | (time << 16)) >> 8) & 0xFF == fmi as bv32
  {}

  lemma ArrivalKeepsFrame(b: TxMailBox, fmi: bv8, time: bv32)
    requires time < 0x1_0000
    ensures FrameOfRx(OnArrival(b, fmi, time)) == FrameOfTx(b)
  {
    hide WithoutRequest, HasExtendedId, IsRemote, ExtendedId, StandardId, Bytes;
    FlagBits(b.tir);
    IdBits(b.tir);
    ArrivalTimeWord(b.tdtr, fmi, time);
  }

  lemma ArrivalFmi(b: TxMailBox, fmi: bv8, time: bv32)
    requires time < 0x1_0000
    ensures ((OnArrival(b, fmi, time).rdtr >> 8) & 0xFF) as bv8 == fmi
  {
    ArrivalTimeWord(b.tdtr, fmi, time);
  }
}
