/** CanTxHistory: what may happen to the three transmit mailboxes, as a history of events.

`Accept` is the driver's transmit request, `StatusWrite` the driver's write to the status
register (it clears completion flags and requests aborts), and `Finish` a step of the controller,
recording the frame it found in the mailbox and whether it was sent. `CanTransmit` proves that
the registers follow a legal history under every interleaving; the lemmas here hold of all
legal histories. */
module CanTxHistory {
  import opened CanFrame

  /** An empty mailbox shows the completion flags RQCP and TXOK, a busy one holds a frame. */
  datatype Slot = Empty(done: bool, ok: bool) | Busy(frame: Frame, aborting: bool)

  type Slots = s: seq<Slot> | |s| == 3 witness RESET

  const RESET: seq<Slot> := [Empty(false, false), Empty(false, false), Empty(false, false)]

  datatype Event =
    | Accept(m: nat, frame: Frame)
    | StatusWrite(cleared: set<nat>, aborted: set<nat>)
    | Finish(m: nat, frame: Frame, ok: bool)

  predicate Enabled(s: Slots, e: Event) {
    match e
    case Accept(m, _) => m < 3 && s[m].Empty?
    case StatusWrite(_, _) => true
    case Finish(m, f, _) => m < 3 && s[m].Busy? && s[m].frame == f
  }

  function AfterStatusWrite(slot: Slot, clear: bool, abort: bool): Slot {
    match slot
    case Empty(_, _) => if clear then Empty(false, false) else slot
    case Busy(f, a) => Busy(f, a || abort)
  }

  function Apply(s: Slots, e: Event): Slots
    requires Enabled(s, e)
  {
    match e
    case Accept(m, f) => s[m := Busy(f, false)]
    case StatusWrite(c, a) =>
      [AfterStatusWrite(s[0], 0 in c, 0 in a),
       AfterStatusWrite(s[1], 1 in c, 1 in a),
       AfterStatusWrite(s[2], 2 in c, 2 in a)]
    case Finish(m, _, ok) => s[m := Empty(true, ok)]
  }

  /** A history is legal when each event is enabled in the state its past leads to. */
  predicate Legal(t: seq<Event>)
    decreases |t|, 0
  {
    t == [] || (Legal(t[..|t| - 1]) && Enabled(Replay(t[..|t| - 1]), t[|t| - 1]))
  }

  function Replay(t: seq<Event>): Slots
    requires Legal(t)
    decreases |t|, 1
  {
    if t == [] then RESET else Apply(Replay(t[..|t| - 1]), t[|t| - 1])
  }

  lemma Extend(t: seq<Event>, e: Event)
    requires Legal(t) && Enabled(Replay(t), e)
    ensures Legal(t + [e]) && Replay(t + [e]) == Apply(Replay(t), e)
  {
    assert (t + [e])[..|t|] == t;
  }

  lemma {:induction false} PrefixLegal(t: seq<Event>, n: nat)
    requires Legal(t) && n <= |t|
    ensures Legal(t[..n])
    decreases |t|
  {
    if n < |t| {
      assert t[..|t| - 1][..n] == t[..n];
      PrefixLegal(t[..|t| - 1], n);
    } else {
      assert t[..n] == t;
    }
  }

  /** Only the controller acted between the two histories. */
  predicate ControllerOnly(before: seq<Event>, after: seq<Event>) {
    before <= after && forall i :: |before| <= i < |after| ==> after[i].Finish?
  }

  predicate FinishedBetween(before: seq<Event>, after: seq<Event>, m: nat) {
    exists i :: |before| <= i < |after| && after[i].Finish? && after[i].m == m
  }

  /** The controller alone leaves empty mailboxes alone, and busy ones until it finishes them. */
  lemma {:induction false} ControllerKeeps(before: seq<Event>, after: seq<Event>, m: nat)
    requires Legal(after) && ControllerOnly(before, after) && m < 3
    ensures Legal(before)
    ensures Replay(before)[m].Empty? ==> Replay(after)[m] == Replay(before)[m]
    ensures Replay(before)[m].Busy? && !FinishedBetween(before, after, m) ==> Replay(after)[m] == Replay(before)[m]
    decreases |after|
  {
    if |before| == |after| {
      assert before == after;
    } else {
      var n := |after| - 1;
      ControllerKeeps(before, after[..n], m);
      assert FinishedBetween(before, after[..n], m) ==> FinishedBetween(before, after, m) by {
        if i :| |before| <= i < n && after[..n][i].Finish? && after[..n][i].m == m {
          assert after[i].Finish? && after[i].m == m;
        }
      }
    }
  }

  // ----- Conservation -----

  // Frames are counted by a predicate: `_ => true` counts all, `f => f == g` counts copies of `g`.

  function Accepted(t: seq<Event>, which: Frame -> bool): nat {
    if t == [] then 0
    else
      var e := t[|t| - 1];
      Accepted(t[..|t| - 1], which) + if e.Accept? && which(e.frame) then 1 else 0
  }

  function Finished(t: seq<Event>, ok: bool, which: Frame -> bool): nat {
    if t == [] then 0
    else
      var e := t[|t| - 1];
      Finished(t[..|t| - 1], ok, which) + if e.Finish? && e.ok == ok && which(e.frame) then 1 else 0
  }

  function Held(slot: Slot, which: Frame -> bool): nat {
    if slot.Busy? && which(slot.frame) then 1 else 0
  }

  function Pending(s: Slots, which: Frame -> bool): nat {
    Held(s[0], which) + Held(s[1], which) + Held(s[2], which)
  }

  /** Every accepted frame is pending, sent, or given up, exactly once. */
  lemma {:induction false} Conservation(t: seq<Event>, which: Frame -> bool)
    requires Legal(t)
    ensures Accepted(t, which)
         == Pending(Replay(t), which) + Finished(t, true, which) + Finished(t, false, which)
    decreases |t|
  {
    if t != [] {
      Conservation(t[..|t| - 1], which);
    }
  }

  // ----- A message keeps its mailbox until the controller finishes it -----

  predicate Touches(e: Event, m: nat) {
    !e.StatusWrite? && e.m == m
  }

  /** Event `i` is the last one to fill or finish mailbox `m`. */
  predicate LastTouch(t: seq<Event>, m: nat, i: nat) {
    i < |t| && Touches(t[i], m) && forall k :: i < k < |t| ==> !Touches(t[k], m)
  }

  predicate ClearedAfter(t: seq<Event>, m: nat, i: nat) {
    exists k :: i < k < |t| && t[k].StatusWrite? && m in t[k].cleared
  }

  /** A mailbox's slot as its last touch determines it. */
  predicate Explains(t: seq<Event>, m: nat, slot: Slot, i: nat) {
    && LastTouch(t, m, i)
    && match t[i]
       case Accept(_, f) => slot.Busy? && slot.frame == f
       case Finish(_, _, ok) =>
         slot == if ClearedAfter(t, m, i) then Empty(false, false) else Empty(true, ok)
       case StatusWrite(_, _) => false
  }

  lemma {:induction false} SlotExplained(t: seq<Event>, m: nat)
    requires Legal(t) && m < 3
    ensures (exists i: nat :: Explains(t, m, Replay(t)[m], i))
         || (Replay(t)[m] == Empty(false, false) && forall k :: 0 <= k < |t| ==> !Touches(t[k], m))
    decreases |t|
  {
    if t != [] {
      var n := |t| - 1;
      var p := t[..n];
      SlotExplained(p, m);
      if Touches(t[n], m) {
        assert LastTouch(t, m, n);
        assert Explains(t, m, Replay(t)[m], n);
      } else if i: nat :| Explains(p, m, Replay(p)[m], i) {
        assert LastTouch(t, m, i);
        ClearedStep(t, m, i);
        assert Explains(t, m, Replay(t)[m], i);
      }
    }
  }

  lemma ClearedStep(t: seq<Event>, m: nat, i: nat)
    requires i < |t| - 1
    ensures ClearedAfter(t, m, i) <==>
      ClearedAfter(t[..|t| - 1], m, i) || (t[|t| - 1].StatusWrite? && m in t[|t| - 1].cleared)
  {
    var n := |t| - 1;
    if k :| i < k < n && t[..n][k].StatusWrite? && m in t[..n][k].cleared {
      assert t[k].StatusWrite? && m in t[k].cleared;
    }
    if k :| i < k < |t| && t[k].StatusWrite? && m in t[k].cleared {
      assert k == n || (t[..n][k].StatusWrite? && m in t[..n][k].cleared);
    }
  }

  /** What the controller sends or gives up is what was accepted, in the same mailbox, with
      nothing having filled or finished that mailbox in between. */
  lemma FinishedAsAccepted(t: seq<Event>, j: nat) returns (i: nat)
    requires Legal(t) && j < |t| && t[j].Finish?
    ensures i < j && t[i] == Accept(t[j].m, t[j].frame)
    ensures forall k :: i < k < j ==> !Touches(t[k], t[j].m)
  {
    var p := t[..j];
    PrefixLegal(t, j);
    PrefixLegal(t, j + 1);
    assert t[..j + 1][..j] == p;
    SlotExplained(p, t[j].m);
    i :| Explains(p, t[j].m, Replay(p)[t[j].m], i);
    assert forall k :: i < k < j ==> t[k] == p[k];
  }

  /** No occupied mailbox is rewritten: before a mailbox is filled again, the controller has
      finished the frame it held. */
  lemma NeverOverwritten(t: seq<Event>, i: nat, j: nat) returns (k: nat)
    requires Legal(t) && i < j < |t|
    requires t[i].Accept? && t[j].Accept? && t[i].m == t[j].m
    requires forall n :: i < n < j ==> t[n].Accept? ==> t[n].m != t[i].m
    ensures i < k < j && t[k].Finish? && t[k].m == t[i].m && t[k].frame == t[i].frame
  {
    var p := t[..j];
    var m := t[i].m;
    PrefixLegal(t, j);
    PrefixLegal(t, j + 1);
    assert t[..j + 1][..j] == p;
    SlotExplained(p, m);
    assert Touches(p[i], m);
    k :| Explains(p, m, Replay(p)[m], k);
    var a := FinishedAsAccepted(t, k);
  }

  // ----- Transmit status -----

  const FAILED: bv8 := 0
  const OK: bv8 := 1
  const PENDING: bv8 := 2

  function StatusOf(slot: Slot): bv8 {
    match slot
    case Busy(_, _) => PENDING
    case Empty(done, ok) => if done && ok then OK else FAILED
  }

  /** The last request of mailbox `m` is still with the controller. */
  ghost predicate Outstanding(t: seq<Event>, m: nat) {
    exists i: nat :: LastTouch(t, m, i) && t[i].Accept?
  }

  /** The last request of mailbox `m` was sent and its completion flag is still there. */
  ghost predicate SentAndNotCleared(t: seq<Event>, m: nat) {
    exists i: nat :: LastTouch(t, m, i) && t[i].Finish? && t[i].ok && !ClearedAfter(t, m, i)
  }

  lemma StatusFromHistory(t: seq<Event>, m: nat)
    requires Legal(t) && m < 3
    ensures StatusOf(Replay(t)[m]) == PENDING <==> Outstanding(t, m)
    ensures StatusOf(Replay(t)[m]) == OK <==> SentAndNotCleared(t, m)
    ensures StatusOf(Replay(t)[m]) == FAILED <==> !Outstanding(t, m) && !SentAndNotCleared(t, m)
  {
    SlotExplained(t, m);
    if i: nat :| Explains(t, m, Replay(t)[m], i) {
      forall j: nat | LastTouch(t, m, j) ensures j == i {}
    }
  }

  // ----- What cancelling does to other mailboxes -----

  function DoneIn(s: Slots): set<nat> {
    set k: nat | k < 3 && s[k].Empty? && s[k].done
  }

  function AbortingIn(s: Slots): set<nat> {
    set k: nat | k < 3 && s[k].Busy? && s[k].aborting
  }

  /** CAN_CancelTransmit or-s its abort bit into the status register, so every completion flag it
      read as set is written back and thereby cleared. */
  function CancelWrite(s: Slots, mailbox: nat): Event {
    StatusWrite(DoneIn(s), AbortingIn(s) + {mailbox})
  }

  /** The controller's steps around a cancel: those before its read lead from `t` to `u`, those between
      its read and its write from `u` to `w`. */
  predicate AroundCancel(t: seq<Event>, u: seq<Event>, w: seq<Event>) {
    Legal(u) && Legal(w) && ControllerOnly(t, u) && ControllerOnly(u, w)
  }

  /** The status of mailbox `k` when the cancel's write has followed `w`, its read having seen `u`. */
  function StatusAfterCancel(u: seq<Event>, w: seq<Event>, mailbox: nat, k: nat): bv8
    requires Legal(u) && Legal(w) && k < 3
  {
    Extend(w, CancelWrite(Replay(u), mailbox));
    StatusOf(Replay(w + [CancelWrite(Replay(u), mailbox)])[k])
  }

  /** A cancel turns every success its read saw into a failure, and changes no other status. */
  lemma CancelOutcome(u: seq<Event>, w: seq<Event>, mailbox: nat, k: nat)
    requires Legal(u) && Legal(w) && ControllerOnly(u, w) && k < 3
    ensures StatusAfterCancel(u, w, mailbox, k)
         == if StatusOf(Replay(u)[k]) == OK then FAILED else StatusOf(Replay(w)[k])
  {
    hide Legal, Replay;
    ControllerKeeps(u, w, k);
    Extend(w, CancelWrite(Replay(u), mailbox));
  }

  /** Whatever the controller does around it, a cancel keeps the status of a mailbox exactly when that
      status is Failed at the call. */
  lemma CancelKeepsStatus(t: seq<Event>, mailbox: nat, k: nat)
    requires Legal(t) && mailbox < 3 && k < 3
    ensures (forall u, w :: AroundCancel(t, u, w) ==> StatusAfterCancel(u, w, mailbox, k) == StatusOf(Replay(w)[k]))
       <==> StatusOf(Replay(t)[k]) == FAILED
  {
    hide Legal, Replay, StatusAfterCancel;
    var slot := Replay(t)[k];
    if StatusOf(slot) == FAILED {
      forall u, w | AroundCancel(t, u, w) ensures StatusAfterCancel(u, w, mailbox, k) == StatusOf(Replay(w)[k]) {
        ControllerKeeps(t, u, k);
        CancelOutcome(u, w, mailbox, k);
      }
    } else {
      var u := if slot.Busy? then t + [Finish(k, slot.frame, true)] else t;
      if slot.Busy? { Extend(t, Finish(k, slot.frame, true)); }
      CancelOutcome(u, u, mailbox, k);
      assert AroundCancel(t, u, u);
    }
  }

  /** With no controller step around it, a cancel keeps the status exactly when it was not Ok. */
  lemma CancelAtOnceKeepsStatus(t: seq<Event>, mailbox: nat, k: nat)
    requires Legal(t) && mailbox < 3 && k < 3
    ensures StatusAfterCancel(t, t, mailbox, k) == StatusOf(Replay(t)[k]) <==> StatusOf(Replay(t)[k]) != OK
  {
    CancelOutcome(t, t, mailbox, k);
  }

  /** A frame that was sent is reported as failed after another mailbox is cancelled. */
  lemma CancelHidesSuccess(f: Frame, g: Frame)
    ensures var t := [Accept(0, f), Accept(1, g), Finish(0, f, true)];
      Legal(t) && StatusOf(Replay(t)[0]) == OK && StatusAfterCancel(t, t, 1, 0) == FAILED
  {
    TwoAccepted(f, g);
    SentFirst(f, g);
    var t := [Accept(0, f), Accept(1, g), Finish(0, f, true)];
    CancelOutcome(t, t, 1, 0);
  }

  /** So is a frame still pending at the call, when it is sent before the cancel reads the register. */
  lemma CancelHidesLaterSuccess(f: Frame, g: Frame)
    ensures var t := [Accept(0, f), Accept(1, g)]; var u := t + [Finish(0, f, true)];
      && Legal(t) && StatusOf(Replay(t)[0]) == PENDING
      && AroundCancel(t, u, u) && StatusOf(Replay(u)[0]) == OK && StatusAfterCancel(u, u, 1, 0) == FAILED
  {
    TwoAccepted(f, g);
    SentFirst(f, g);
    var t := [Accept(0, f), Accept(1, g)];
    assert t + [Finish(0, f, true)] == [Accept(0, f), Accept(1, g), Finish(0, f, true)];
    CancelOutcome(t + [Finish(0, f, true)], t + [Finish(0, f, true)], 1, 0);
  }

  lemma TwoAccepted(f: Frame, g: Frame)
    ensures var t := [Accept(0, f), Accept(1, g)];
      Legal(t) && Replay(t) == [Busy(f, false), Busy(g, false), Empty(false, false)]
  {
    Extend([], Accept(0, f));
    assert [] + [Accept(0, f)] == [Accept(0, f)];
    Extend([Accept(0, f)], Accept(1, g));
    assert [Accept(0, f)] + [Accept(1, g)] == [Accept(0, f), Accept(1, g)];
  }

  lemma SentFirst(f: Frame, g: Frame)
    ensures var t := [Accept(0, f), Accept(1, g), Finish(0, f, true)];
      Legal(t) && Replay(t) == [Empty(true, true), Busy(g, false), Empty(false, false)]
  {
    var t := [Accept(0, f), Accept(1, g)];
    TwoAccepted(f, g);
    Extend(t, Finish(0, f, true));
    assert t + [Finish(0, f, true)] == [Accept(0, f), Accept(1, g), Finish(0, f, true)];
  }
}
