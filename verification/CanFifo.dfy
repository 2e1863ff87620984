/** CanFifo: one three-stage receive FIFO of the CAN controller, and what the driver reads of it.

The hardware assumptions are in `After`: a frame is stored behind those already there while fewer
than three are; a further frame sets the overrun flag and is dropped when the FIFO is locked, or
replaces the newest stored frame when it is not; the release bit drops the oldest stored frame;
writing 1 to FULL or FOVR clears it. The output mailbox shows the oldest stored frame, and keeps
showing the last one when nothing is stored. */
module CanFifo {
  import opened CanFrame

  datatype Fifo = Fifo(stored: seq<RxMailBox>, output: RxMailBox, full: bool, overrun: bool)

  const RESET: Fifo := Fifo([], RxMailBox(0, 0, 0, 0), false, false)

  datatype Event = Arrive(b: RxMailBox, locked: bool) | Write(v: bv32)

  const FULL: bv32 := 0x08
  const FOVR: bv32 := 0x10

  /** The driver's name of the release bit. */
  const RFOM: bv32 := 0x20

  /** The register RFxR as it reads. */
  function Rfr(f: Fifo): bv32 {
    (if |f.stored| == 0 then 0 else if |f.stored| == 1 then 1 else if |f.stored| == 2 then 2 else 3)
    | (if f.full then 0x08 else 0) | (if f.overrun then 0x10 else 0)
  }

  /** `f` with `stored` in it and the oldest of them on show. */
  function Showing(f: Fifo, stored: seq<RxMailBox>): Fifo {
    f.(stored := stored, output := if stored == [] then f.output else stored[0])
  }

  /** Bit 5 releases, bit 3 clears FULL and bit 4 FOVR. */
  predicate Releases(v: bv32) {
    v & 0x20 != 0
  }

  predicate Clears(v: bv32, flag: bv32) {
    v & flag != 0
  }

  function After(f: Fifo, e: Event): (g: Fifo)
    ensures FifoOk(f) ==> FifoOk(g)
  {
    hide Releases, Clears;
    match e
    case Arrive(b, locked) =>
      if |f.stored| < 3 then Showing(f, f.stored + [b]).(full := f.full || |f.stored| == 2)
      else if locked then f.(overrun := true)
      else Showing(f, f.stored[..2] + [b]).(overrun := true)
    case Write(v) =>
      var g := f.(full := f.full && !Clears(v, FULL), overrun := f.overrun && !Clears(v, FOVR));
      if Releases(v) && f.stored != [] then Showing(g, f.stored[1..]) else g
  }

  predicate FifoOk(f: Fifo) {
    |f.stored| <= 3 && (f.stored != [] ==> f.output == f.stored[0])
  }

  function Replay(f: Fifo, t: seq<Event>): (g: Fifo)
    ensures FifoOk(f) ==> FifoOk(g)
  {
    if t == [] then f else After(Replay(f, t[..|t| - 1]), t[|t| - 1])
  }

  predicate ArrivalsOnly(t: seq<Event>) {
    forall i :: 0 <= i < |t| ==> t[i].Arrive?
  }

  lemma {:induction false} ReplayConcat(f: Fifo, t: seq<Event>, u: seq<Event>)
    ensures Replay(f, t + u) == Replay(Replay(f, t), u)
  {
    if u == [] {
      assert t + u == t;
    } else {
      var n := |u| - 1;
      assert (t + u)[..|t + u| - 1] == t + u[..n];
      ReplayConcat(f, t, u[..n]);
    }
  }

  // ----- Order: nothing is lost or repeated but what an overrun loses -----

  /** The frame `e` releases from `g`, if any. */
  function Out(g: Fifo, e: Event): seq<RxMailBox> {
    if e.Write? && Releases(e.v) && g.stored != [] then [g.stored[0]] else []
  }

  /** The frames released, oldest first. */
  function Taken(f: Fifo, t: seq<Event>): seq<RxMailBox> {
    if t == [] then []
    else
      var n := |t| - 1;
      Taken(f, t[..n]) + Out(Replay(f, t[..n]), t[n])
  }

  /** The frames that arrived, in order of arrival. */
  function Arrived(t: seq<Event>): seq<RxMailBox> {
    if t == [] then []
    else Arrived(t[..|t| - 1]) + if t[|t| - 1].Arrive? then [t[|t| - 1].b] else []
  }

  /** `kept` after `e` happens to `g`: an overrun loses the arriving frame when the FIFO is locked,
      and the newest one when it is not. */
  function Keep(kept: seq<RxMailBox>, g: Fifo, e: Event): seq<RxMailBox> {
    match e
    case Write(_) => kept
    case Arrive(b, locked) =>
      if |g.stored| < 3 then kept + [b]
      else if locked || kept == [] then kept
      else kept[..|kept| - 1] + [b]
  }

  /** The frames that arrived, without those lost by overruns. */
  function Kept(f: Fifo, t: seq<Event>): seq<RxMailBox> {
    if t == [] then f.stored
    else
      var n := |t| - 1;
      Keep(Kept(f, t[..n]), Replay(f, t[..n]), t[n])
  }

  function Overruns(f: Fifo, t: seq<Event>): nat {
    if t == [] then 0
    else
      var n := |t| - 1;
      Overruns(f, t[..n]) + if t[n].Arrive? && |Replay(f, t[..n]).stored| >= 3 then 1 else 0
  }

  lemma OrderStep(taken: seq<RxMailBox>, g: Fifo, e: Event)
    requires FifoOk(g)
    ensures taken + Out(g, e) + After(g, e).stored == Keep(taken + g.stored, g, e)
  {
    hide Releases;
    if e.Write? {
      if Releases(e.v) && g.stored != [] {
        assert [g.stored[0]] + g.stored[1..] == g.stored;
      }
    } else if |g.stored| < 3 {
      assert taken + (g.stored + [e.b]) == taken + g.stored + [e.b];
    } else if !e.locked {
      assert taken + (g.stored[..2] + [e.b]) == (taken + g.stored)[..|taken| + 2] + [e.b];
    }
  }

  /** The frames released, followed by those still stored, are the frames kept. */
  lemma {:induction false} InOrder(f: Fifo, t: seq<Event>)
    requires FifoOk(f)
    ensures Taken(f, t) + Replay(f, t).stored == Kept(f, t)
  {
    hide After, Out, Keep;
    if t != [] {
      var n := |t| - 1;
      InOrder(f, t[..n]);
      OrderStep(Taken(f, t[..n]), Replay(f, t[..n]), t[n]);
    }
  }

  lemma {:induction false} OneLostPerOverrun(f: Fifo, t: seq<Event>)
    requires FifoOk(f)
    ensures |Kept(f, t)| + Overruns(f, t) == |f.stored| + |Arrived(t)|
    ensures Overruns(f, t) == 0 ==> Kept(f, t) == f.stored + Arrived(t)
  {
    hide Releases;
    if t != [] {
      var n := |t| - 1;
      OneLostPerOverrun(f, t[..n]);
      InOrder(f, t[..n]);
    }
  }

  /** From an empty FIFO and without overruns, the released frames and the stored ones are exactly
      the arrivals, in order. */
  lemma NoneLostOrRepeated(f: Fifo, t: seq<Event>)
    requires FifoOk(f) && f.stored == [] && Overruns(f, t) == 0
    ensures Taken(f, t) + Replay(f, t).stored == Arrived(t)
  {
    InOrder(f, t);
    OneLostPerOverrun(f, t);
    assert f.stored + Arrived(t) == Arrived(t);
  }

  // ----- What a release does to the flags -----

  /** What the driver writes back to RFxR when it has read it in state `f`. */
  function ReleaseWrite(f: Fifo): bv32 {
    Rfr(f) | RFOM
  }

  /** The flags read are written back, with bit 5. */
  predicate WritesBack(f: Fifo, v: bv32) {
    v == Rfr(f) | 0x20
  }

  lemma ReleaseWritesBack(f: Fifo)
    ensures WritesBack(f, ReleaseWrite(f))
  {}

  lemma ReleaseWriteBits(f: Fifo)
    ensures Releases(ReleaseWrite(f))
    ensures Clears(ReleaseWrite(f), FULL) == f.full
    ensures Clears(ReleaseWrite(f), FOVR) == f.overrun
  {}

  /** A release wipes out exactly the full and overrun reports its read has seen; one that comes between
      its read, in state `f`, and its write, in state `g`, stays. */
  lemma ReleaseOutcome(f: Fifo, g: Fifo)
    ensures var h := After(g, Write(ReleaseWrite(f)));
      && h.full == (g.full && !f.full) && h.overrun == (g.overrun && !f.overrun)
      && h.stored == if g.stored == [] then [] else g.stored[1..]
  {
    hide ReleaseWrite, Releases, Clears;
    ReleaseWriteBits(f);
  }

  /** Whatever the FIFO holds, an overrun may come before the read and is then wiped out unseen. */
  lemma OverrunHidden(f: Fifo, b: RxMailBox) returns (t: seq<Event>)
    requires FifoOk(f)
    ensures ArrivalsOnly(t)
    ensures var g := Replay(f, t); g.overrun && !After(g, Write(ReleaseWrite(g))).overrun
  {
    hide Releases, Clears, ReleaseWrite;
    var e := Arrive(b, true);
    t := [e, e, e, e];
    assert t[..3] == [e, e, e] && t[..2] == [e, e] && t[..1] == [e] && t[..0] == [];
    assert [e, e, e][..2] == [e, e] && [e, e][..1] == [e] && [e][..0] == [];
    var g1 := After(f, e);
    assert Replay(f, [e]) == g1;
    var g2 := After(g1, e);
    assert Replay(f, [e, e]) == g2;
    var g3 := After(g2, e);
    assert Replay(f, [e, e, e]) == g3 && |g3.stored| == 3;
    assert Replay(f, t) == After(g3, e);
    ReleaseOutcome(Replay(f, t), Replay(f, t));
  }

  // ----- What a sequence of reads sees while frames keep arriving -----

  /** `f` becomes `g` by arrivals alone. */
  ghost predicate Arrivals(f: Fifo, g: Fifo) {
    exists t :: ArrivalsOnly(t) && g == Replay(f, t)
  }

  /** Reads of the output mailbox, starting from `f` and with arrivals before each, saw `seen`. */
  ghost predicate Sees(f: Fifo, seen: seq<RxMailBox>, g: Fifo) {
    if seen == [] then g == f
    else
      && g.output == seen[|seen| - 1]
      && exists mid :: Sees(f, seen[..|seen| - 1], mid) && Arrivals(mid, g)
  }

  lemma {:induction false} ArrivalsKeepHead(f: Fifo, t: seq<Event>)
    requires FifoOk(f) && f.stored != [] && ArrivalsOnly(t)
    ensures var g := Replay(f, t); g.stored != [] && g.stored[0] == f.stored[0] && g.output == f.output
  {
    if t != [] {
      assert FifoOk(Replay(f, t[..|t| - 1]));
      ArrivalsKeepHead(f, t[..|t| - 1]);
    }
  }

  /** While something is stored, every read sees the oldest stored frame. */
  lemma {:induction false} SeesHead(f: Fifo, seen: seq<RxMailBox>, g: Fifo)
    requires FifoOk(f) && f.stored != [] && Sees(f, seen, g)
    ensures FifoOk(g) && g.stored != [] && g.stored[0] == f.stored[0]
    ensures forall i :: 0 <= i < |seen| ==> seen[i] == f.stored[0]
    decreases |seen|
  {
    hide After, Replay;
    if seen != [] {
      var mid :| Sees(f, seen[..|seen| - 1], mid) && Arrivals(mid, g);
      SeesHead(f, seen[..|seen| - 1], mid);
      var t :| ArrivalsOnly(t) && g == Replay(mid, t);
      ArrivalsKeepHead(mid, t);
    }
  }

  lemma SeesMore(f: Fifo, seen: seq<RxMailBox>, mid: Fifo, g: Fifo)
    requires Sees(f, seen, mid) && Arrivals(mid, g)
    ensures Sees(f, seen + [g.output], g)
  {
    assert (seen + [g.output])[..|seen|] == seen;
  }

  /** Reads that saw `seen`, and then arrivals up to the moment of the release. */
  ghost predicate Interleaved(f: Fifo, seen: seq<RxMailBox>, g: Fifo) {
    exists mid :: Sees(f, seen, mid) && Arrivals(mid, g)
  }

  // ----- The message CAN_Receive assembles -----

  /** The thirteen reads of CAN_Receive, in order: the identifier register for IDE, identifier and
      RTR, the RDTR register for the DLC and FMI, four of each data register. The identifier of the
      other type keeps the caller's value. */
  function Assembled(rx: CanRxMsg, s: seq<RxMailBox>): CanRxMsg
    requires |s| == 13
  {
    WithHeader(rx, s[0].rir, s[1].rir, s[2].rir, s[3].rdtr, s[4].rdtr).(
      data := [Byte(s[5].rdlr, 0), Byte(s[6].rdlr, 1), Byte(s[7].rdlr, 2), Byte(s[8].rdlr, 3),
               Byte(s[9].rdhr, 0), Byte(s[10].rdhr, 1), Byte(s[11].rdhr, 2), Byte(s[12].rdhr, 3)])
  }

  function WithHeader(rx: CanRxMsg, rir0: bv32, rir1: bv32, rir2: bv32, rdtr0: bv32, rdtr1: bv32): CanRxMsg {
    var ide := (rir0 & 0x04) as bv8;
    CanRxMsg(if ide == ID_STANDARD then (rir1 >> 21) & 0x7FF else rx.stdId,
             if ide == ID_STANDARD then rx.extId else (rir1 >> 3) & 0x1FFF_FFFF,
             ide, (rir2 & 0x02) as bv8, (rdtr0 & 0x0F) as bv8, rx.data, ((rdtr1 >> 8) & 0xFF) as bv8)
  }

  function Same(b: RxMailBox, n: nat): seq<RxMailBox> {
    seq(n, i => b)
  }

  /** The message for one and the same mailbox `b` in all reads. */
  function MessageOf(rx: CanRxMsg, b: RxMailBox): CanRxMsg {
    Assembled(rx, Same(b, 13))
  }

  lemma ReceivedIds(rir: bv32)
    ensures (rir >> 21) & 0x7FF == rir >> 21
    ensures (rir >> 3) & 0x1FFF_FFFF == rir >> 3
  {}

  lemma ReceivedFlags(rir: bv32)
    ensures (((rir & 0x04) as bv8) == ID_EXTENDED) == (rir & 0x4 != 0)
    ensures (((rir & 0x04) as bv8) == ID_STANDARD) == (rir & 0x4 == 0)
    ensures (((rir & 0x02) as bv8) == RTR_REMOTE) == (rir & 0x2 != 0)
  {}

  lemma ReceivedHeader(rx: CanRxMsg, b: RxMailBox)
    ensures var f := FrameOfReceived(MessageOf(rx, b)); var g := FrameOfRx(b);
      f.extended == g.extended && f.id == g.id && f.remote == g.remote && f.dlc == g.dlc
  {
    hide Byte;
    ReceivedIds(b.rir);
    ReceivedFlags(b.rir);
  }

  /** The message holds the frame of the mailbox it was read from. */
  lemma ReceivedFrame(rx: CanRxMsg, b: RxMailBox)
    ensures FrameOfReceived(MessageOf(rx, b)) == FrameOfRx(b)
    ensures MessageOf(rx, b).fmi == ((b.rdtr >> 8) & 0xFF) as bv8
  {
    hide Byte;
    ReceivedHeader(rx, b);
    assert FrameOfReceived(MessageOf(rx, b)).data == FrameOfRx(b).data;
  }

  /** What one node sends another receives: identifier of the requested type, RTR, DLC and data. */
  lemma TransmitThenReceive(msg: CanTxMsg, sent: TxMailBox, fmi: bv8, time: bv32, rx: CanRxMsg)
    requires Sendable(msg) && FrameOfTx(sent) == FrameOfMessage(msg) && time < 0x1_0000
    ensures FrameOfReceived(MessageOf(rx, OnArrival(sent, fmi, time))) == FrameOfMessage(msg)
    ensures var r := MessageOf(rx, OnArrival(sent, fmi, time));
      && r.ide == msg.ide && r.rtr == msg.rtr && r.data == msg.data && r.fmi == fmi
      && (msg.ide == ID_STANDARD ==> r.stdId == msg.stdId && r.extId == rx.extId)
      && (msg.ide == ID_EXTENDED ==> r.extId == msg.extId && r.stdId == rx.stdId)
      && (msg.dlc <= 8 ==> r.dlc == msg.dlc)
  {
    hide FrameOfTx, FrameOfRx, OnArrival, MessageOf;
    var b := OnArrival(sent, fmi, time);
    ArrivalKeepsFrame(sent, fmi, time);
    ReceivedFrame(rx, b);
    ArrivalFmi(sent, fmi, time);
    MessageShape(rx, b);
    SmallDlc(msg.dlc);
  }

  lemma MessageShape(rx: CanRxMsg, b: RxMailBox)
    ensures var r := MessageOf(rx, b);
      && r.ide in {ID_STANDARD, ID_EXTENDED} && r.rtr in {RTR_DATA, RTR_REMOTE}
      && (r.ide == ID_STANDARD ==> r.extId == rx.extId) && (r.ide == ID_EXTENDED ==> r.stdId == rx.stdId)
  {
    FlagValues(b.rir);
  }

  lemma FlagValues(rir: bv32)
    ensures (rir & 0x04) as bv8 in {ID_STANDARD, ID_EXTENDED} && (rir & 0x02) as bv8 in {RTR_DATA, RTR_REMOTE}
  {}

  lemma SmallDlc(dlc: bv8)
    ensures dlc <= 8 ==> dlc & 0x0F == dlc
  {}

  // ----- When a receive is faithful -----

  /** The message returned is the one the release drops, under every interleaving of arrivals,
      exactly when the FIFO holds a message at the call: CAN_MessagePending tells. */
  lemma FaithfulIffPending(f: Fifo, rx: CanRxMsg)
    requires FifoOk(f)
    ensures (forall seen, g :: |seen| == 13 && Interleaved(f, seen, g) ==>
              g.stored != [] && Assembled(rx, seen) == MessageOf(rx, g.stored[0]))
       <==> f.stored != []
  {
    hide Assembled, After;
    if f.stored != [] {
      forall seen, g | |seen| == 13 && Interleaved(f, seen, g)
        ensures g.stored != [] && Assembled(rx, seen) == MessageOf(rx, g.stored[0])
      {
        FaithfulWhenPending(f, rx, seen, g);
      }
    } else {
      var seen := [] + Same(f.output, 13);
      StillReads(f, [], f, 13);
      NoArrivals(f);
      assert |seen| == 13 && Interleaved(f, seen, f);
    }
  }

  lemma FaithfulWhenPending(f: Fifo, rx: CanRxMsg, seen: seq<RxMailBox>, g: Fifo)
    requires FifoOk(f) && f.stored != [] && |seen| == 13 && Interleaved(f, seen, g)
    ensures g.stored != [] && g.stored[0] == f.stored[0]
    ensures Assembled(rx, seen) == MessageOf(rx, f.stored[0])
  {
    hide Assembled, After, Replay, Sees;
    var mid :| Sees(f, seen, mid) && Arrivals(mid, g);
    SeesHead(f, seen, mid);
    var t :| ArrivalsOnly(t) && g == Replay(mid, t);
    ArrivalsKeepHead(mid, t);
    assert seen == Same(f.stored[0], 13);
  }

  lemma NoArrivals(f: Fifo)
    ensures Arrivals(f, f)
  {
    assert ArrivalsOnly([]) && Replay(f, []) == f;
  }

  /** `n` more reads with nothing arriving. */
  lemma {:induction false} StillReads(f: Fifo, seen: seq<RxMailBox>, g: Fifo, n: nat)
    requires Sees(f, seen, g)
    ensures Sees(f, seen + Same(g.output, n), g)
  {
    hide After, Replay, Arrivals;
    if n == 0 {
      assert seen + Same(g.output, 0) == seen;
    } else {
      StillReads(f, seen, g, n - 1);
      NoArrivals(g);
      SeesMore(f, seen + Same(g.output, n - 1), g, g);
      assert seen + Same(g.output, n - 1) + [g.output] == seen + Same(g.output, n);
    }
  }

  /** On an empty FIFO a frame `y` arriving between the reads yields a message with the header of
      the stale mailbox and the data of `y`; the release then drops `y`. */
  lemma TornWhenEmpty(f: Fifo, y: RxMailBox, rx: CanRxMsg) returns (seen: seq<RxMailBox>, g: Fifo)
    requires FifoOk(f) && f.stored == []
    ensures |seen| == 13 && Interleaved(f, seen, g) && g.stored == [y]
    ensures Assembled(rx, seen) == MessageOf(rx, f.output).(data := MessageOf(rx, y).data)
  {
    hide Assembled, Sees;
    g := After(f, Arrive(y, false));
    FirstRead(f);
    StillReads(f, [], f, 5);
    OneArrival(f, Arrive(y, false));
    NoArrivals(g);
    var s := [] + Same(f.output, 5);
    SeesMore(f, s, f, g);
    StillReads(f, s + [g.output], g, 7);
    seen := s + [g.output] + Same(g.output, 7);
    assert seen == TornReads(f.output, y);
    TornMessage(rx, f.output, y);
  }

  lemma FirstRead(f: Fifo)
    ensures Sees(f, [], f)
  {}

  lemma OneArrival(f: Fifo, e: Event)
    requires e.Arrive?
    ensures Arrivals(f, After(f, e))
  {
    assert ArrivalsOnly([e]) && [e][..0] == [] && Replay(f, [e]) == After(f, e);
  }

  function TornReads(x: RxMailBox, y: RxMailBox): seq<RxMailBox> {
    [x, x, x, x, x, y, y, y, y, y, y, y, y]
  }

  lemma TornMessage(rx: CanRxMsg, x: RxMailBox, y: RxMailBox)
    ensures Assembled(rx, TornReads(x, y)) == MessageOf(rx, x).(data := MessageOf(rx, y).data)
  {
    hide Byte, WithHeader;
  }
}
