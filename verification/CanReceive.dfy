/** CanReceive: the two receive FIFOs of the CAN register block and their driver functions.

Before any register access of the driver the controller may store any number of frames
(`ControllerRuns`), in either FIFO, locked or not. */
module CanReceive {
  import opened CanFrame
  import opened CanFifo

  datatype Register = RIR | RDTR | RDLR | RDHR

  function Get(b: RxMailBox, r: Register): bv32 {
    match r
    case RIR => b.rir
    case RDTR => b.rdtr
    case RDLR => b.rdlr
    case RDHR => b.rdhr
  }

  function FourBytes(s: seq<RxMailBox>, r: Register): seq<bv8>
    requires |s| == 4
  {
    [Byte(Get(s[0], r), 0), Byte(Get(s[1], r), 1), Byte(Get(s[2], r), 2), Byte(Get(s[3], r), 3)]
  }

  lemma AssembledParts(rx: CanRxMsg, head: seq<RxMailBox>, low: seq<RxMailBox>, high: seq<RxMailBox>)
    requires |head| == 5 && |low| == 4 && |high| == 4
    ensures Assembled(rx, head + low + high)
         == WithHeader(rx, head[0].rir, head[1].rir, head[2].rir, head[3].rdtr, head[4].rdtr).(
              data := FourBytes(low, RDLR) + FourBytes(high, RDHR))
  {
    hide WithHeader, Byte;
  }

  /** Only arrivals were added to a FIFO's history. */
  predicate Grew(before: seq<Event>, after: seq<Event>) {
    before <= after && ArrivalsOnly(after[|before|..])
  }

  lemma GrewMore(a: seq<Event>, b: seq<Event>, c: seq<Event>)
    requires Grew(a, b) && Grew(b, c)
    ensures Grew(a, c)
  {
    forall i | 0 <= i < |c[|a|..]| ensures c[|a|..][i].Arrive? {
      if i < |b| - |a| {
        assert b[|a|..][i] == c[|a|..][i];
      } else {
        assert c[|b|..][i + |a| - |b|] == c[|a|..][i];
      }
    }
  }

  lemma GrewIsArrivals(before: seq<Event>, after: seq<Event>)
    requires Grew(before, after)
    ensures Arrivals(Replay(RESET, before), Replay(RESET, after))
  {
    assert before + after[|before|..] == after;
    ReplayConcat(RESET, before, after[|before|..]);
  }

  /** The history grew from `p`, and its last event writes back to RFxR what was read of it when the
      history was `read` long. */
  predicate ReleasedAfter(p: seq<Event>, h: seq<Event>, read: nat) {
    && |p| <= read < |h| && Grew(p, h[..|h| - 1]) && Grew(h[..read], h[..|h| - 1])
    && h[|h| - 1] == Write(ReleaseWrite(Replay(RESET, h[..read])))
    && WritesBack(Replay(RESET, h[..read]), h[|h| - 1].v)
  }

  /** The flags before the write at the end of `h`, but for those seen by its read, are the flags of `f`. */
  predicate FlagsKept(h: seq<Event>, read: nat, f: Fifo) {
    && read < |h|
    && f.overrun == (Replay(RESET, h[..|h| - 1]).overrun && !Replay(RESET, h[..read]).overrun)
    && f.full == (Replay(RESET, h[..|h| - 1]).full && !Replay(RESET, h[..read]).full)
  }

  lemma FlagsAfterRelease(p: seq<Event>, h: seq<Event>, read: nat)
    requires ReleasedAfter(p, h, read)
    ensures FlagsKept(h, read, Replay(RESET, h)) && Releases(h[|h| - 1].v)
  {
    hide ReleaseWrite, WritesBack, Releases, After, Grew;
    ReleaseWriteBits(Replay(RESET, h[..read]));
    ReleaseOutcome(Replay(RESET, h[..read]), Replay(RESET, h[..|h| - 1]));
  }

  lemma ReleasedSince(p: seq<Event>, mid: seq<Event>, h: seq<Event>, read: nat)
    requires Grew(p, mid) && ReleasedAfter(mid, h, read)
    ensures ReleasedAfter(p, h, read)
  {
    hide Replay, ReleaseWrite, WritesBack;
    GrewMore(p, mid, h[..|h| - 1]);
  }

  lemma GrewPrefix(a: seq<Event>, b: seq<Event>)
    requires Grew(a, b)
    ensures |a| <= |b| && b[..|a|] == a
  {}

  /** A receive takes the history of its FIFO from `p` to `h`: arrivals before and between its reads, then
      one release; `msg` is put together from what the reads saw. */
  ghost predicate Receives(p: seq<Event>, h: seq<Event>, rx: CanRxMsg, msg: CanRxMsg) {
    && |h| > 0 && h[|h| - 1].Write? && Releases(h[|h| - 1].v) && Grew(p, h[..|h| - 1])
    && exists seen :: |seen| == 13 && msg == Assembled(rx, seen)
         && Interleaved(Replay(RESET, p), seen, Replay(RESET, h[..|h| - 1]))
  }

  class RxUnit {
    const fifo: array<Fifo>
    ghost var past0: seq<Event>
    ghost var past1: seq<Event>

    ghost function Past(n: nat): seq<Event>
      reads this
    {
      if n == 0 then past0 else past1
    }

    ghost predicate Valid()
      reads this, fifo
      ensures Valid() ==> fifo.Length == 2
    {
      && fifo.Length == 2
      && fifo[0] == Replay(RESET, past0) && FifoOk(fifo[0])
      && fifo[1] == Replay(RESET, past1) && FifoOk(fifo[1])
    }

    constructor ()
      ensures Valid() && past0 == past1 == [] && fresh(fifo)
    {
      fifo := new Fifo[2](_ => RESET);
      past0, past1 := [], [];
    }

    method Happens(n: nat, e: Event)
      requires Valid() && n < 2
      modifies this, fifo
      ensures Valid()
      ensures Past(n) == old(Past(n)) + [e] && Past(1 - n) == old(Past(1 - n))
    {
      hide After, FifoOk;
      assert (Past(n) + [e])[..|Past(n) + [e]| - 1] == Past(n);
      fifo[n] := After(fifo[n], e);
      if n == 0 { past0 := past0 + [e]; } else { past1 := past1 + [e]; }
    }

    /** Any number of arrivals, in either FIFO. */
    method ControllerRuns()
      requires Valid()
      modifies this, fifo
      ensures Valid()
      ensures Grew(old(past0), past0) && Grew(old(past1), past1)
    {
      hide Valid;
      var n: nat := *;
      while n > 0
        invariant Valid()
        invariant Grew(old(past0), past0) && Grew(old(past1), past1)
      {
        var k: bool, b: RxMailBox, locked: bool := *, *, *;
        ghost var p0, p1 := past0, past1;
        Happens(if k then 0 else 1, Arrive(b, locked));
        GrewMore(old(past0), p0, past0);
        GrewMore(old(past1), p1, past1);
        n := n - 1;
      }
    }

    /** Reads a register of the output mailbox of FIFO `n`; `seen` records what the mailbox showed. */
    method Read(n: nat, r: Register, ghost f: Fifo, ghost seen: seq<RxMailBox>)
      returns (v: bv32, ghost more: seq<RxMailBox>)
      requires Valid() && n < 2 && Sees(f, seen, fifo[n])
      modifies this, fifo
      ensures Valid()
      ensures Grew(old(past0), past0) && Grew(old(past1), past1)
      ensures Sees(f, more, fifo[n]) && more == seen + [fifo[n].output]
      ensures v == Get(more[|seen|], r)
    {
      hide FifoOk, Sees;
      ghost var was := fifo[n];
      ghost var p0, p1 := past0, past1;
      ControllerRuns();
      GrewIsArrivals(p0, past0);
      GrewIsArrivals(p1, past1);
      SeesMore(f, seen, was, fifo[n]);
      v := Get(fifo[n].output, r);
      more := seen + [fifo[n].output];
    }

    // ----- CAN_Receive -----

    /** The five reads that give the header. */
    method ReadHeader(n: nat, rx: CanRxMsg) returns (msg: CanRxMsg, ghost seen: seq<RxMailBox>)
      requires Valid() && n < 2
      modifies this, fifo
      ensures Valid()
      ensures Grew(old(past0), past0) && Grew(old(past1), past1)
      ensures Sees(old(fifo[n]), seen, fifo[n]) && |seen| == 5
      ensures msg == WithHeader(rx, seen[0].rir, seen[1].rir, seen[2].rir, seen[3].rdtr, seen[4].rdtr)
    {
      hide Valid, Sees, WithHeader;
      ghost var f := fifo[n];
      FirstRead(f);
      var v0, v1, v2, v3, v4;
      v0, seen := Read(n, RIR, f, []);
      ghost var s := seen;
      v1, seen := Read(n, RIR, f, s);
      s := seen;
      v2, seen := Read(n, RIR, f, s);
      s := seen;
      v3, seen := Read(n, RDTR, f, s);
      s := seen;
      v4, seen := Read(n, RDTR, f, s);
      msg := WithHeader(rx, v0, v1, v2, v3, v4);
    }

    /** The four reads of a data register, one for each byte. */
    method ReadFour(n: nat, r: Register, ghost f: Fifo, ghost before: seq<RxMailBox>)
      returns (data: seq<bv8>, ghost four: seq<RxMailBox>)
      requires Valid() && n < 2 && Sees(f, before, fifo[n])
      modifies this, fifo
      ensures Valid()
      ensures Grew(old(past0), past0) && Grew(old(past1), past1)
      ensures |four| == 4 && Sees(f, before + four, fifo[n]) && data == FourBytes(four, r)
    {
      hide Valid, Sees, Byte;
      ghost var seen;
      var v0, v1, v2, v3;
      v0, seen := Read(n, r, f, before);
      ghost var s := seen;
      v1, seen := Read(n, r, f, s);
      s := seen;
      v2, seen := Read(n, r, f, s);
      s := seen;
      v3, seen := Read(n, r, f, s);
      data := [Byte(v0, 0), Byte(v1, 1), Byte(v2, 2), Byte(v3, 3)];
      four := seen[|before|..];
      assert before + four == seen;
    }

    method ReadMessage(n: nat, rx: CanRxMsg) returns (msg: CanRxMsg, ghost seen: seq<RxMailBox>)
      requires Valid() && n < 2
      modifies this, fifo
      ensures Valid()
      ensures Grew(old(past0), past0) && Grew(old(past1), past1)
      ensures Sees(old(fifo[n]), seen, fifo[n]) && |seen| == 13 && msg == Assembled(rx, seen)
    {
      hide Valid, Sees, WithHeader, FourBytes, Grew, Assembled;
      ghost var f, p0, p1 := fifo[n], past0, past1;
      ghost var head, four, eight;
      msg, head := ReadHeader(n, rx);
      ghost var q0, q1 := past0, past1;
      var low, high;
      low, four := ReadFour(n, RDLR, f, head);
      GrewMore(p0, q0, past0);
      GrewMore(p1, q1, past1);
      q0, q1 := past0, past1;
      high, eight := ReadFour(n, RDHR, f, head + four);
      GrewMore(p0, q0, past0);
      GrewMore(p1, q1, past1);
      msg := msg.(data := low + high);
      seen := head + four + eight;
      AssembledParts(rx, head, four, eight);
    }

    /** Or-s the release bit into RFxR: a read, when the history is `read` long, then a write. */
    method Release(n: nat) returns (ghost read: nat)
      requires Valid() && n < 2
      modifies this, fifo
      ensures Valid()
      ensures Grew(old(Past(1 - n)), Past(1 - n))
      ensures ReleasedAfter(old(Past(n)), Past(n), read)
    {
      hide Valid, Rfr, Grew, Replay, WritesBack;
      ghost var p0, p1 := past0, past1;
      ControllerRuns();
      ValidAt(n);
      var v := Rfr(fifo[n]);
      read := |Past(n)|;
      ghost var q, q0, q1 := Past(n), past0, past1;
      ControllerRuns();
      GrewMore(p0, q0, past0);
      GrewMore(p1, q1, past1);
      ghost var h := Past(n);
      GrewPrefix(old(Past(n)), q);
      GrewPrefix(q, h);
      ReleaseWritesBack(Replay(RESET, q));
      Happens(n, Write(v | RFOM));
      assert Past(n)[..|h|] == h && Past(n)[..read] == q;
    }

    /** `read` is the length of the history when RFxR was read. */
    method Receive(n: nat, rx: CanRxMsg) returns (msg: CanRxMsg, ghost read: nat)
      requires Valid() && n < 2
      modifies this, fifo
      ensures Valid()
      // The other FIFO only grows; this one grows and is then released once.
      ensures Grew(old(Past(1 - n)), Past(1 - n))
      ensures Receives(old(Past(n)), Past(n), rx, msg)
      // With a message pending at the call, it is that message which is returned and dropped.
      ensures old(fifo[n]).stored != [] ==>
        && msg == MessageOf(rx, old(fifo[n]).stored[0])
        && Taken(RESET, Past(n)) == Taken(RESET, old(Past(n))) + [old(fifo[n]).stored[0]]
      // Exactly the full and overrun reports its read of RFxR has seen are wiped out.
      ensures ReleasedAfter(old(Past(n)), Past(n), read) && FlagsKept(Past(n), read, fifo[n])
    {
      hide Valid, Assembled, Releases, Sees, Grew, Interleaved, Taken, MessageOf, Replay, FlagsKept, ReleaseWrite,
        WritesBack;
      ghost var f, p, q := fifo[n], Past(n), Past(1 - n);
      ghost var seen;
      ValidAt(n);
      msg, seen := ReadMessage(n, rx);
      ghost var mid, other := Past(n), Past(1 - n);
      ValidAt(n);
      read := Release(n);
      GrewMore(q, other, Past(1 - n));
      ValidAt(n);
      FlagsAfterRelease(mid, Past(n), read);
      ReleasedSince(p, mid, Past(n), read);
      Received(p, mid, Past(n), seen, rx);
      PendingReceived(p, Past(n), rx, msg);
    }

    // ----- CAN_MessagePending -----

    method MessagePending(n: nat) returns (pending: bv8)
      requires Valid()
      modifies this, fifo
      ensures Valid()
      ensures Grew(old(past0), past0) && Grew(old(past1), past1)
      ensures n >= 2 ==> pending == 0
      ensures n < 2 ==> pending as int == |fifo[n].stored|
    {
      pending := 0;
      if n < 2 {
        hide Rfr, After;
        ControllerRuns();
        PendingCount(fifo[n]);
        pending := (Rfr(fifo[n]) & 0x03) as bv8;
      }
    }

    lemma ValidAt(n: nat)
      requires Valid() && n < 2
      ensures fifo[n] == Replay(RESET, Past(n))
    {}
  }

  /** Reads while the history grows from `p` to `mid`, then the release at the end of `h`. */
  lemma Received(p: seq<Event>, mid: seq<Event>, h: seq<Event>, seen: seq<RxMailBox>, rx: CanRxMsg)
    requires Grew(p, mid) && Sees(Replay(RESET, p), seen, Replay(RESET, mid)) && |seen| == 13
    requires |h| > 0 && h[|h| - 1].Write? && Releases(h[|h| - 1].v) && Grew(mid, h[..|h| - 1])
    ensures Receives(p, h, rx, Assembled(rx, seen))
  {
    hide Assembled, Releases, Sees, After;
    var t := h[..|h| - 1];
    GrewMore(p, mid, t);
    GrewIsArrivals(mid, t);
    assert Interleaved(Replay(RESET, p), seen, Replay(RESET, t));
  }

  /** With a message pending, a receive returns and takes exactly the oldest. */
  lemma PendingReceived(p: seq<Event>, h: seq<Event>, rx: CanRxMsg, msg: CanRxMsg)
    requires Receives(p, h, rx, msg)
    ensures var f := Replay(RESET, p); f.stored != [] ==>
      && msg == MessageOf(rx, f.stored[0])
      && Taken(RESET, h) == Taken(RESET, p) + [f.stored[0]]
  {
    hide Assembled, Releases, Sees, After, MessageOf, Interleaved;
    var f, t := Replay(RESET, p), h[..|h| - 1];
    var seen :| |seen| == 13 && msg == Assembled(rx, seen) && Interleaved(f, seen, Replay(RESET, t));
    if f.stored != [] {
      FaithfulWhenPending(f, rx, seen, Replay(RESET, t));
      NothingTaken(p, t);
    }
  }

  lemma {:induction false} NothingTaken(before: seq<Event>, after: seq<Event>)
    requires Grew(before, after)
    ensures Taken(RESET, after) == Taken(RESET, before)
    decreases |after|
  {
    if |before| == |after| {
      assert before == after;
    } else {
      var n := |after| - 1;
      assert after[|before|..][n - |before|].Arrive?;
      assert after[..n][|before|..] == after[|before|..][..n - |before|];
      NothingTaken(before, after[..n]);
    }
  }

  lemma PendingCount(f: Fifo)
    requires FifoOk(f)
    ensures ((Rfr(f) & 0x03) as bv8) as int == |f.stored|
  {}
}
