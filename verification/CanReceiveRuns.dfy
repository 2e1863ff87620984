/** CanReceiveRuns: the messages any sequence of CAN_Receive calls on a FIFO returns. */
module CanReceiveRuns {
  import opened CanFrame
  import opened CanFifo
  import opened CanReceive

  /** A call, with the history of the FIFO before and after it. */
  datatype Call = Call(before: seq<Event>, after: seq<Event>, rx: CanRxMsg, msg: CanRxMsg)

  /** The calls follow each other from reset, with any arrivals between them. */
  ghost predicate IsRun(calls: seq<Call>) {
    forall i :: 0 <= i < |calls| ==>
      && Grew(Ends(calls[..i]), calls[i].before)
      && Receives(calls[i].before, calls[i].after, calls[i].rx, calls[i].msg)
  }

  /** The history at the end of the calls. */
  function Ends(calls: seq<Call>): seq<Event> {
    if calls == [] then [] else calls[|calls| - 1].after
  }

  /** What CAN_MessagePending tells before the call. */
  predicate Pending(c: Call) {
    Replay(RESET, c.before).stored != []
  }

  predicate AllPending(calls: seq<Call>) {
    forall i :: 0 <= i < |calls| ==> Pending(calls[i])
  }

  function TakenBy(calls: seq<Call>): seq<RxMailBox> {
    Taken(RESET, Ends(calls))
  }

  lemma NothingYet()
    ensures TakenBy([]) == []
  {}

  lemma TakenGrows(c: Call)
    requires Receives(c.before, c.after, c.rx, c.msg)
    ensures Taken(RESET, c.before) <= Taken(RESET, c.after)
  {
    hide Assembled, Releases, Interleaved, After;
    NothingTaken(c.before, c.after[..|c.after| - 1]);
  }

  /** The step from a run to one call more. */
  lemma OneMore(calls: seq<Call>)
    requires IsRun(calls) && calls != []
    ensures var n := |calls| - 1; var c := calls[n];
      && IsRun(calls[..n]) && Taken(RESET, c.before) == TakenBy(calls[..n]) <= TakenBy(calls)
      && (Pending(c) ==>
            && |TakenBy(calls)| == |TakenBy(calls[..n])| + 1
            && c.msg == MessageOf(c.rx, TakenBy(calls)[|TakenBy(calls)| - 1]))
  {
    hide Receives, Grew, MessageOf, Replay, Taken;
    var n := |calls| - 1;
    var c := calls[n];
    forall i | 0 <= i < n ensures calls[..n][..i] == calls[..i] && calls[..n][i] == calls[i] {}
    assert Receives(c.before, c.after, c.rx, c.msg) && Grew(Ends(calls[..n]), c.before);
    NothingTaken(Ends(calls[..n]), c.before);
    TakenGrows(c);
    PendingReceived(c.before, c.after, c.rx, c.msg);
  }

  /** Call `c` returned the message of the frame that left the FIFO next, `taken` being all that left it. */
  predicate ReturnedNext(c: Call, taken: seq<RxMailBox>) {
    var k := |Taken(RESET, c.before)|;
    k < |taken| && c.msg == MessageOf(c.rx, taken[k])
  }

  /** Every call with a message pending returns the message of the frame that leaves the FIFO next,
      whatever the other calls met. */
  lemma {:induction false} PendingCallReturnsNext(calls: seq<Call>)
    requires IsRun(calls)
    ensures forall i :: 0 <= i < |calls| && Pending(calls[i]) ==> ReturnedNext(calls[i], TakenBy(calls))
    decreases |calls|
  {
    hide IsRun, Pending, MessageOf, Taken;
    if calls != [] {
      OneMore(calls);
      var n := |calls| - 1;
      PendingCallReturnsNext(calls[..n]);
      forall i | 0 <= i < |calls| && Pending(calls[i]) ensures ReturnedNext(calls[i], TakenBy(calls)) {
        if i < n { assert calls[..n][i] == calls[i]; }
      }
    }
  }

  /** When every call has a message pending, call `i` returns the message of the frame taken `i`-th. */
  lemma {:induction false} ReturnedInOrder(calls: seq<Call>)
    requires IsRun(calls) && AllPending(calls)
    ensures |TakenBy(calls)| == |calls|
    ensures forall i :: 0 <= i < |calls| ==> calls[i].msg == MessageOf(calls[i].rx, TakenBy(calls)[i])
    decreases |calls|
  {
    hide IsRun, Pending, MessageOf, Taken, Replay;
    if calls == [] {
      NothingYet();
    } else {
      var n := |calls| - 1;
      OneMore(calls);
      ReturnedInOrder(calls[..n]);
      forall i | 0 <= i < n ensures calls[i].msg == MessageOf(calls[i].rx, TakenBy(calls)[i]) {
        assert calls[..n][i] == calls[i];
      }
    }
  }

  /** Without overruns the messages returned are those of the frames that arrived, in order of arrival,
      none lost or repeated; the frames that arrived since are still stored. */
  lemma ReturnedAsArrived(calls: seq<Call>)
    requires IsRun(calls) && AllPending(calls) && Overruns(RESET, Ends(calls)) == 0
    ensures Arrived(Ends(calls)) == TakenBy(calls) + Replay(RESET, Ends(calls)).stored
    ensures |calls| <= |Arrived(Ends(calls))|
    ensures forall i :: 0 <= i < |calls| ==>
      && calls[i].msg == MessageOf(calls[i].rx, Arrived(Ends(calls))[i])
      && FrameOfReceived(calls[i].msg) == FrameOfRx(Arrived(Ends(calls))[i])
  {
    hide IsRun, AllPending, MessageOf, FrameOfReceived, FrameOfRx, Taken, Arrived, Replay;
    ReturnedInOrder(calls);
    NoneLostOrRepeated(RESET, Ends(calls));
    forall i | 0 <= i < |calls|
      ensures calls[i].msg == MessageOf(calls[i].rx, Arrived(Ends(calls))[i])
      ensures FrameOfReceived(calls[i].msg) == FrameOfRx(Arrived(Ends(calls))[i])
    {
      ReceivedFrame(calls[i].rx, TakenBy(calls)[i]);
    }
  }
}
