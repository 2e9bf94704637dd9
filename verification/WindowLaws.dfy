/** What every operation on a send window keeps. */
module WindowLaws {
  import opened Words
  import opened Tables
  import opened WindowSpec

  /** Held slots carry consecutive sequence numbers; a retired one carries nothing else. */
  ghost predicate Core(w: Window) {
    && |w.slots| <= MAX_SLOTS && w.capacity <= MAX_SLOTS
    && w.next == Plus(w.first, |w.slots|)
    && (forall i | 0 <= i < |w.slots| :: SlotOk(w, i))
    && w.deliver <= |w.slots|
    && w.ackEvery >= 1
    && (w.closed ==> !w.running)
    && |w.ring| <= RING_SIZE
  }

  ghost predicate SlotOk(w: Window, i: nat)
    requires i < |w.slots| <= MAX_SLOTS
  {
    && w.slots[i].msg.seqNum == Plus(w.first, i)
    && (w.slots[i].retired ==> w.slots[i].size == 0 && w.slots[i].msg == Message(None, Plus(w.first, i), false))
  }

  /** The byte count is what the slots are charged, until Close returns it. */
  ghost predicate Counted(w: Window) {
    && w.bytes == (if w.closed then 0 else Sum(w.slots, SizeOf()))
    && (w.escapeBytes != 0 ==> !w.closed && Pos(w, w.escapeSeq) < |w.slots|
                               && w.slots[Pos(w, w.escapeSeq)].size == w.escapeBytes)
  }

  /** The receipt list is ordered, lies in the window, and its cells tell the truth. */
  ghost predicate Tracking(w: Window) {
    && (forall j | 0 <= j < |w.tracked| :: EntryOk(w, w.tracked[j]))
    && Ascending(w.tracked, w.first)
  }

  ghost predicate EntryOk(w: Window, e: Entry) {
    && Pos(w, e.sn) < |w.slots|
    && e.cell < |w.cells|
    && w.cells[e.cell] == (if w.slots[Pos(w, e.sn)].retired then Retired else Retained)
    && (if e.max == 0 then e.sends == 0 else e.sends <= e.max)
  }

  /** No frame that had its last transmission is still to be delivered. */
  ghost predicate Unspent(w: Window) {
    forall j | 0 <= j < |w.tracked| :: Sendable(w, w.tracked[j])
  }

  ghost predicate Sendable(w: Window, e: Entry) {
    w.deliver <= Pos(w, e.sn) < |w.slots| && !w.slots[Pos(w, e.sn)].retired ==> !Exhausted(e)
  }

  ghost predicate Ascending(tracked: seq<Entry>, first: u64) {
    forall j, k | 0 <= j < k < |tracked| ::
      Minus(tracked[j].sn, first) < Minus(tracked[k].sn, first) && tracked[j].cell < tracked[k].cell
  }

  ghost predicate HeadLive(w: Window) {
    |w.slots| > 0 ==> !w.slots[0].retired
  }

  ghost predicate Inv(w: Window) {
    Core(w) && Counted(w) && Tracking(w) && Unspent(w) && HeadLive(w)
  }

  // ----- Helpers -----

  lemma PosShift(first: u64, sn: u64, k: nat)
    requires k <= Minus(sn, first)
    ensures Minus(sn, Plus(first, k)) == Minus(sn, first) - k
  {
  }

  lemma {:induction false} CoveredSplit(tracked: seq<Entry>, first: u64, k: nat)
    requires Ascending(tracked, first)
    ensures forall j | 0 <= j < |tracked| :: j < Covered(tracked, first, k) <==> Minus(tracked[j].sn, first) < k
  {
    if |tracked| != 0 && Minus(tracked[0].sn, first) < k {
      CoveredSplit(tracked[1..], first, k);
      forall j | 0 <= j < |tracked|
        ensures j < Covered(tracked, first, k) <==> Minus(tracked[j].sn, first) < k
      {
        if j > 0 { assert tracked[j] == tracked[1..][j - 1]; }
      }
    }
  }

  ghost predicate HasCell(es: seq<Entry>, c: nat) {
    exists j | 0 <= j < |es| :: es[j].cell == c
  }

  /** Confirming entries acknowledges exactly their retained cells. */
  lemma {:induction false} ConfirmAt(cells: seq<Frame>, es: seq<Entry>, c: nat)
    requires c < |cells|
    ensures Confirm(cells, es)[c] == if HasCell(es, c) && cells[c] == Retained then Acknowledged else cells[c]
  {
    if |es| > 0 {
      var init, last := es[..|es| - 1], es[|es| - 1];
      ConfirmAt(cells, init, c);
      if HasCell(es, c) && last.cell != c {
        var j :| 0 <= j < |es| && es[j].cell == c;
        assert init[j].cell == c;
      }
      if HasCell(init, c) {
        var j :| 0 <= j < |init| && init[j].cell == c;
        assert es[j].cell == c;
      }
      if last.cell == c { assert es[|es| - 1].cell == c; }
    }
  }

  lemma {:induction false} RunRetired(slots: seq<Slot>)
    ensures forall i | 0 <= i < RetiredRun(slots) :: slots[i].retired
    ensures RetiredRun(slots) < |slots| ==> !slots[RetiredRun(slots)].retired
  {
    if |slots| != 0 && slots[0].retired {
      RunRetired(slots[1..]);
      assert forall i | 1 <= i < |slots| :: slots[i] == slots[1..][i - 1];
    }
  }

  lemma {:induction false} RingBounded(ring: seq<u64>, first: u64, n: nat)
    requires |ring| <= RING_SIZE && n <= MAX_SLOTS
    ensures |RememberRun(ring, first, n)| <= RING_SIZE
  {
    if n > 0 {
      RingBounded(ring, first, n - 1);
    }
  }

  // ----- Admission -----

  lemma AdmitKeeps(w: Window, r: Request, forced: bool, step: nat, escaped: bool)
    requires Inv(w) && w.running && Available(w) && (escaped ==> r.size > 0)
    ensures Inv(Admit(w, r, forced, step, escaped))
  {
    var x := Admit(w, r, forced, step, escaped);
    SumAppend(w.slots, x.slots[|w.slots|], SizeOf());
    forall i | 0 <= i < |x.slots| ensures SlotOk(x, i) {
      if i < |w.slots| { assert SlotOk(w, i); }
    }
    forall j | 0 <= j < |x.tracked| ensures EntryOk(x, x.tracked[j]) && Sendable(x, x.tracked[j]) {
      if j < |w.tracked| { assert EntryOk(w, w.tracked[j]) && Sendable(w, w.tracked[j]); }
    }
    forall j | 0 <= j < |w.tracked|
      ensures Minus(w.tracked[j].sn, w.first) < |w.slots| && w.tracked[j].cell < |w.cells|
    {
      assert EntryOk(w, w.tracked[j]);
    }
  }

  // ----- Removal -----

  lemma RemoveSums(w: Window, k: nat)
    requires Counted(w) && k <= |w.slots|
    ensures Sum(w.slots, SizeOf()) == Sum(w.slots[..k], SizeOf()) + Sum(w.slots[k..], SizeOf())
  {
    SumConcat(w.slots[..k], w.slots[k..], SizeOf());
    assert w.slots == w.slots[..k] + w.slots[k..];
  }

  /** Removing a prefix keeps everything but the live head, and refunds exactly its bytes. */
  lemma RemoveKeeps(w: Window, k: nat, acked: bool)
    requires Core(w) && Counted(w) && Tracking(w) && k <= |w.slots|
    ensures Core(Remove(w, k, acked)) && Counted(Remove(w, k, acked)) && Tracking(Remove(w, k, acked))
    ensures Unspent(w) ==> Unspent(Remove(w, k, acked))
    ensures RemoveRefund(w, k).bytes == (if w.closed then 0 else Sum(w.slots[..k], SizeOf()))
    ensures RemoveRefund(w, k).escape <= RemoveRefund(w, k).bytes
  {
    var x := Remove(w, k, acked);
    forall i | 0 <= i < |x.slots| ensures SlotOk(x, i) {
      assert SlotOk(w, i + k);
    }
    RemoveCounted(w, k, acked);
    RemoveTracking(w, k, acked);
  }

  lemma RemoveCounted(w: Window, k: nat, acked: bool)
    requires Core(w) && Counted(w) && k <= |w.slots|
    ensures Counted(Remove(w, k, acked))
    ensures RemoveRefund(w, k).bytes == (if w.closed then 0 else Sum(w.slots[..k], SizeOf()))
    ensures RemoveRefund(w, k).escape <= RemoveRefund(w, k).bytes
  {
    RemoveSums(w, k);
    if w.escapeBytes != 0 {
      var p := Pos(w, w.escapeSeq);
      if p < k {
        SumAtLeast(w.slots[..k], p, SizeOf());
      } else {
        PosShift(w.first, w.escapeSeq, k);
      }
    }
  }

  lemma RemoveEntry(w: Window, k: nat, acked: bool, j: nat)
    requires Core(w) && Tracking(w) && k <= |w.slots|
    requires Covered(w.tracked, w.first, k) <= j < |w.tracked|
    ensures var x := Remove(w, k, acked);
      EntryOk(x, w.tracked[j]) && Pos(x, w.tracked[j].sn) == Pos(w, w.tracked[j].sn) - k
    ensures Sendable(w, w.tracked[j]) ==> Sendable(Remove(w, k, acked), w.tracked[j])
  {
    var e, n := w.tracked[j], Covered(w.tracked, w.first, k);
    CoveredSplit(w.tracked, w.first, k);
    assert EntryOk(w, e);
    PosShift(w.first, e.sn, k);
    assert !HasCell(w.tracked[..n], e.cell);
    ConfirmAt(w.cells, w.tracked[..n], e.cell);
  }

  lemma RemoveTracking(w: Window, k: nat, acked: bool)
    requires Core(w) && Tracking(w) && k <= |w.slots|
    ensures Tracking(Remove(w, k, acked))
    ensures Unspent(w) ==> Unspent(Remove(w, k, acked))
  {
    var x := Remove(w, k, acked);
    var n := Covered(w.tracked, w.first, k);
    forall j | 0 <= j < |x.tracked|
      ensures EntryOk(x, x.tracked[j]) && Pos(x, x.tracked[j].sn) == Pos(w, w.tracked[j + n].sn) - k
      ensures Unspent(w) ==> Sendable(x, x.tracked[j])
    {
      RemoveEntry(w, k, acked, j + n);
      assert x.tracked[j] == w.tracked[j + n];
    }
  }

  /** Local release of retired slots restores a live head, and refunds nothing. */
  lemma ReleaseHeadKeeps(w: Window)
    requires Core(w) && Counted(w) && Tracking(w) && Unspent(w)
    ensures Inv(ReleaseHead(w))
    ensures forall i | 0 <= i < |ReleaseRefunds(w)| :: ReleaseRefunds(w)[i] == Refund(0, 0)
    ensures ReleaseHead(w).cells == w.cells
  {
    var n := RetiredRun(w.slots);
    RunRetired(w.slots);
    if n > 0 {
      var y := w.(ring := RememberRun(w.ring, w.first, n));
      RingBounded(w.ring, w.first, n);
      assert Core(y) by { forall i | 0 <= i < |y.slots| ensures SlotOk(y, i) { assert SlotOk(w, i); } }
      assert Tracking(y) && Unspent(y) by {
        forall j | 0 <= j < |y.tracked| ensures EntryOk(y, y.tracked[j]) && Sendable(y, y.tracked[j]) {
          assert EntryOk(w, w.tracked[j]) && Sendable(w, w.tracked[j]);
        }
      }
      RemoveKeeps(y, n, false);
      forall i | 0 <= i < n ensures SizeOf()(w.slots[..n][i]) == 0 { assert SlotOk(w, i); }
      SumZero(w.slots[..n], SizeOf());
    }
  }

  lemma AckByKeeps(w: Window, k: nat)
    requires Inv(w) && k <= |w.slots|
    ensures Inv(AckBy(w, k))
  {
    if k > 0 {
      RemoveKeeps(w, k, true);
      ReleaseHeadKeeps(Remove(w, k, true));
    }
  }

  /** An acknowledgement keeps the invariant. */
  lemma AckKeeps(w: Window, sn: u64, backing: u64)
    requires Inv(w)
    ensures Inv(Ack(w, sn, backing))
  {
    AckByKeeps(w, AckCount(w, sn, backing));
  }

  // ----- Retirement -----

  /** Retiring the slot of a tracked entry keeps everything but the live head. */
  lemma RetireKeeps(w: Window, j: nat)
    requires Core(w) && Counted(w) && Tracking(w) && j < |w.tracked|
    ensures Pos(w, w.tracked[j].sn) < |w.slots|
    ensures var x := Retire(w, Pos(w, w.tracked[j].sn), w.tracked[j].cell);
      Core(x) && Counted(x) && Tracking(x)
    ensures var r := RetireRefund(w, Pos(w, w.tracked[j].sn));
      r.bytes == (if w.closed then 0 else w.slots[Pos(w, w.tracked[j].sn)].size) && r.escape <= r.bytes
  {
    var e := w.tracked[j];
    assert EntryOk(w, e);
    var i := Pos(w, e.sn);
    var x := Retire(w, i, e.cell);
    assert SlotOk(w, i);
    SumUpdate(w.slots, i, x.slots[i], SizeOf());
    SumAtLeast(w.slots, i, SizeOf());
    forall k | 0 <= k < |x.slots| ensures SlotOk(x, k) {
      assert SlotOk(w, k);
    }
    forall k | 0 <= k < |x.tracked| ensures EntryOk(x, x.tracked[k]) {
      assert EntryOk(w, w.tracked[k]);
      assert k < j ==> Minus(w.tracked[k].sn, w.first) < Minus(e.sn, w.first);
      assert k > j ==> Minus(e.sn, w.first) < Minus(w.tracked[k].sn, w.first);
    }
  }

  /** `x` is `w` with the spent ones among its first `j` tracked entries retired, and nothing else. */
  ghost predicate Spent(w: Window, x: Window, j: nat) {
    && Core(x) && Counted(x) && Tracking(x)
    && x.deliver == w.deliver && |x.cells| == |w.cells| && x.first == w.first && |x.slots| == |w.slots|
    && x.tracked == w.tracked && j <= |w.tracked|
    && (forall k | 0 <= k < |w.tracked| :: EntryOk(w, w.tracked[k])
          && (x.slots[Pos(w, w.tracked[k].sn)].retired
              <==> w.slots[Pos(w, w.tracked[k].sn)].retired || (k < j && Exhausted(w.tracked[k]))))
    && (forall i | 0 <= i < |w.slots| :: !x.slots[i].retired ==> x.slots[i] == w.slots[i])
    && (forall i | 0 <= i < |w.slots| && w.slots[i].retired :: x.slots[i].retired)
  }

  lemma SpentStep(w: Window, x: Window, j: nat)
    requires Spent(w, x, j) && j < |w.tracked| && Ascending(w.tracked, w.first)
    ensures Spent(w, RetireIfSpent(x, w.tracked[j]), j + 1)
  {
    assert EntryOk(x, x.tracked[j]);
    RetireKeeps(x, j);
    assert forall k | 0 <= k < |w.tracked| && k != j :: Pos(w, w.tracked[k].sn) != Pos(w, w.tracked[j].sn);
  }

  lemma {:induction false} RetireSpentKeeps(w: Window, j: nat)
    requires Core(w) && Counted(w) && Tracking(w) && j <= |w.tracked|
    ensures Spent(w, RetireSpent(w, j), j)
  {
    if j == 0 {
      SpentBase(w);
    } else {
      RetireSpentKeeps(w, j - 1);
      SpentTo(w, j);
    }
  }

  lemma SpentTo(w: Window, j: nat)
    requires 0 < j <= |w.tracked| && Spent(w, RetireSpent(w, j - 1), j - 1) && Ascending(w.tracked, w.first)
    ensures Spent(w, RetireSpent(w, j), j)
  {
    SpentStep(w, RetireSpent(w, j - 1), j - 1);
  }

  lemma SpentBase(w: Window)
    requires Core(w) && Counted(w) && Tracking(w)
    ensures Spent(w, w, 0)
  {
    assert forall k | 0 <= k < |w.tracked| :: EntryOk(w, w.tracked[k]);
  }

  lemma RestartKeeps(w: Window)
    requires Core(w) && Counted(w) && Tracking(w)
    ensures Core(w.(deliver := 0)) && Counted(w.(deliver := 0)) && Tracking(w.(deliver := 0))
  {
    var v := w.(deliver := 0);
    forall i | 0 <= i < |v.slots| ensures SlotOk(v, i) { assert SlotOk(w, i); }
    forall j | 0 <= j < |v.tracked| ensures EntryOk(v, v.tracked[j]) { assert EntryOk(w, w.tracked[j]); }
  }

  /** A delivery reset keeps the invariant: what could not be sent again is retired first. */
  lemma ResetKeeps(w: Window)
    requires Inv(w)
    ensures Inv(Reset(w))
  {
    var v := w.(deliver := 0);
    RestartKeeps(w);
    RetireSpentKeeps(v, |v.tracked|);
    var x := RetireSpent(v, |v.tracked|);
    forall j | 0 <= j < |x.tracked| ensures Sendable(x, x.tracked[j]) {
      assert EntryOk(x, x.tracked[j]);
    }
    ReleaseHeadKeeps(x);
  }

  // ----- Delivery -----

  /** The first live slot from `i` on, or the end. */
  function FirstLive(slots: seq<Slot>, i: nat): (n: nat)
    requires i <= |slots|
    ensures i <= n <= |slots|
    ensures forall k | i <= k < n :: slots[k].retired
    ensures n < |slots| ==> !slots[n].retired
    decreases |slots| - i
  {
    if i == |slots| || !slots[i].retired then i else FirstLive(slots, i + 1)
  }

  /** The window after slot `n` was handed out. */
  function Handed(w: Window, n: nat): Window
    requires n < |w.slots|
  {
    CountSend(w, EntryAt(w.tracked, w.first, n)).(deliver := n + 1)
  }

  /** In a valid window the fence at handoff time never fires: delivery skips placeholders, hands out
      the first live message and counts the transmission, and retires nothing. */
  lemma {:induction false} NextExact(w: Window)
    requires Inv(w)
    ensures var n := FirstLive(w.slots, w.deliver);
      Next(w) == if n == |w.slots| then Handoff(w.(deliver := n), None, [])
                 else Handoff(Handed(w, n), Some(Outgoing(w, n)), [])
    decreases |w.slots| - w.deliver
  {
    if w.deliver < |w.slots| {
      if w.slots[w.deliver].retired {
        StepPast(w);
        NextExact(w.(deliver := w.deliver + 1));
        HandedLater(w, FirstLive(w.slots, w.deliver));
      } else {
        NextLive(w);
      }
    }
  }

  lemma NextLive(w: Window)
    requires Inv(w) && w.deliver < |w.slots| && !w.slots[w.deliver].retired
    ensures Next(w) == Handoff(Handed(w, w.deliver), Some(Outgoing(w, w.deliver)), [])
  {
    var j := EntryAt(w.tracked, w.first, w.deliver);
    if j.Some? { assert Sendable(w, w.tracked[j.value]); }
  }

  lemma HandedLater(w: Window, n: nat)
    ensures n < |w.slots| ==>
              && Handed(w.(deliver := w.deliver + 1), n) == Handed(w, n)
              && Outgoing(w.(deliver := w.deliver + 1), n) == Outgoing(w, n)
  {
  }

  lemma StepPast(w: Window)
    requires Inv(w) && w.deliver < |w.slots|
    ensures Inv(w.(deliver := w.deliver + 1))
  {
    var v := w.(deliver := w.deliver + 1);
    forall i | 0 <= i < |v.slots| ensures SlotOk(v, i) { assert SlotOk(w, i); }
    forall j | 0 <= j < |v.tracked| ensures EntryOk(v, v.tracked[j]) && Sendable(v, v.tracked[j]) {
      assert EntryOk(w, w.tracked[j]) && Sendable(w, w.tracked[j]);
    }
  }

  /** Counting the transmission of a live, unspent frame keeps the receipt list valid. */
  lemma CountKeeps(w: Window, n: nat, t: Option<nat>)
    requires Inv(w) && w.deliver <= n < |w.slots| && !w.slots[n].retired
    requires t.Some? ==> t.value < |w.tracked| && Pos(w, w.tracked[t.value].sn) == n
    ensures Inv(CountSend(w, t).(deliver := n + 1))
  {
    var x := CountSend(w, t).(deliver := n + 1);
    forall i | 0 <= i < |x.slots| ensures SlotOk(x, i) { assert SlotOk(w, i); }
    forall j | 0 <= j < |x.tracked|
      ensures x.tracked[j].sn == w.tracked[j].sn && x.tracked[j].cell == w.tracked[j].cell
      ensures EntryOk(x, x.tracked[j]) && Sendable(x, x.tracked[j])
    {
      assert EntryOk(w, w.tracked[j]) && Sendable(w, w.tracked[j]);
    }
  }

  lemma DoneKeeps(w: Window)
    requires Inv(w)
    ensures Inv(w.(deliver := |w.slots|))
  {
    var x := w.(deliver := |w.slots|);
    forall i | 0 <= i < |x.slots| ensures SlotOk(x, i) { assert SlotOk(w, i); }
    forall j | 0 <= j < |x.tracked| ensures EntryOk(x, x.tracked[j]) { assert EntryOk(w, w.tracked[j]); }
  }

  lemma NextKeeps(w: Window)
    requires Inv(w)
    ensures Inv(Next(w).w)
  {
    NextExact(w);
    var n := FirstLive(w.slots, w.deliver);
    if n == |w.slots| { DoneKeeps(w); } else { CountKeeps(w, n, EntryAt(w.tracked, w.first, n)); }
  }

  // ----- Flow control and shutdown -----

  /** Operations that leave the queue, the receipts and the delivery point alone. */
  lemma SameQueue(w: Window, x: Window)
    requires Inv(w)
    requires x.slots == w.slots && x.first == w.first && x.next == w.next && x.deliver == w.deliver
    requires x.cells == w.cells && x.ring == w.ring
    requires x.tracked == w.tracked || x.tracked == []
    ensures (forall i | 0 <= i < |x.slots| :: SlotOk(x, i)) && Tracking(x) && Unspent(x) && HeadLive(x)
  {
    forall i | 0 <= i < |x.slots| ensures SlotOk(x, i) { assert SlotOk(w, i); }
    forall j | 0 <= j < |x.tracked| ensures EntryOk(x, x.tracked[j]) && Sendable(x, x.tracked[j]) {
      assert EntryOk(w, w.tracked[j]) && Sendable(w, w.tracked[j]);
    }
  }

  lemma ResizeKeeps(w: Window, capacity: nat)
    requires Inv(w) && capacity <= MAX_SLOTS
    ensures Inv(Resize(w, capacity))
  {
    SameQueue(w, Resize(w, capacity));
  }

  lemma SealKeeps(w: Window)
    requires Inv(w)
    ensures Inv(Seal(w)) && Inv(Forget(w))
  {
    SameQueue(w, Seal(w));
    SameQueue(w, Forget(w));
  }

  /** Closing returns every byte still held, the escape included. */
  lemma CloseKeeps(w: Window)
    requires Inv(w)
    ensures Inv(Close(w))
    ensures CloseRefund(w) == Refund(w.bytes, w.escapeBytes) && w.escapeBytes <= w.bytes
  {
    SameQueue(w, Close(w));
    if w.escapeBytes != 0 {
      SumAtLeast(w.slots, Pos(w, w.escapeSeq), SizeOf());
    }
  }
}
