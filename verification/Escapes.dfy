/** Overshooting messages of one client: when they end, that the one remembered as its escape is remembered
    until then, and exactly when a delivery reset leaves one held without a request to end it. */
module Escapes {
  import opened Words
  import opened Tables
  import opened WindowSpec
  import opened WindowLaws
  import opened WindowRuns
  import opened WindowTheorems
  import opened Clients

  /** From `w` to `x` the message numbered `sn` stays as it is or ends for good, and if it is the
      remembered escape it is remembered until then. */
  ghost predicate Follows(w: Window, x: Window, sn: u64) {
    && x.closed == w.closed
    && (Ended(w, sn) ==> Ended(x, sn))
    && (!Ended(w, sn) && !Ended(x, sn) ==> x.slots[Pos(x, sn)] == w.slots[Pos(w, sn)])
    && x.escapeSeq == w.escapeSeq
    && (sn == w.escapeSeq ==> x.escapeBytes == w.escapeBytes || (x.escapeBytes == 0 && Ended(x, sn)))
  }

  lemma RemoveFollows(w: Window, k: nat, acked: bool, sn: u64)
    requires Core(w) && k <= |w.slots|
    ensures Follows(w, Remove(w, k, acked), sn)
  {
    if k <= Pos(w, sn) { PosShift(w.first, sn, k); }
  }

  lemma RetireFollows(w: Window, e: Entry, sn: u64)
    requires Core(w)
    ensures Follows(w, RetireIfSpent(w, e), sn)
  {
    if ToRetire(w, e) { assert SlotOk(w, Pos(w, e.sn)); }
  }

  lemma HeadFollows(w: Window, sn: u64)
    requires Core(w)
    ensures Follows(w, ReleaseHead(w), sn)
  {
    var n := RetiredRun(w.slots);
    if n > 0 {
      var y := w.(ring := RememberRun(w.ring, w.first, n));
      RingBounded(w.ring, w.first, n);
      forall i | 0 <= i < |y.slots| ensures SlotOk(y, i) { assert SlotOk(w, i); }
      RemoveFollows(y, n, false, sn);
    }
  }

  lemma FollowsTrans(w: Window, x: Window, y: Window, sn: u64)
    requires Follows(w, x, sn) && Follows(x, y, sn)
    ensures Follows(w, y, sn)
  {
  }

  lemma {:induction false} SpentFollows(w: Window, j: nat, sn: u64)
    requires Core(w) && Counted(w) && Tracking(w) && j <= |w.tracked|
    ensures Follows(w, RetireSpent(w, j), sn)
  {
    if j > 0 {
      SpentFollows(w, j - 1, sn);
      RetireSpentKeeps(w, j - 1);
      RetireFollows(RetireSpent(w, j - 1), w.tracked[j - 1], sn);
      FollowsTrans(w, RetireSpent(w, j - 1), RetireSpent(w, j), sn);
    }
  }

  lemma ResetFollows(w: Window, sn: u64)
    requires Inv(w)
    ensures Follows(w, Reset(w), sn)
  {
    var v := w.(deliver := 0);
    RestartKeeps(w);
    SpentFollows(v, |v.tracked|, sn);
    RetireSpentKeeps(v, |v.tracked|);
    HeadFollows(RetireSpent(v, |v.tracked|), sn);
    FollowsTrans(v, RetireSpent(v, |v.tracked|), Reset(w), sn);
  }

  lemma AckFollows(w: Window, k: nat, sn: u64)
    requires Inv(w) && k <= |w.slots|
    ensures Follows(w, AckBy(w, k), sn)
  {
    if k > 0 {
      RemoveFollows(w, k, true, sn);
      RemoveKeeps(w, k, true);
      HeadFollows(Remove(w, k, true), sn);
      FollowsTrans(w, Remove(w, k, true), AckBy(w, k), sn);
    }
  }

  /** No operation changes a held live message; it can only end it. */
  lemma OpFollows(w: Window, op: Op, sn: u64)
    requires Inv(w) && Enabled(w, op) && !op.Add? && !op.Shut?
    ensures Follows(w, Apply(w, op), sn)
  {
    match op
    case Confirmed(a, backing) => AckFollows(w, AckCount(w, a, backing), sn);
    case Deliver => NextExact(w);
    case Restart => ResetFollows(w, sn);
    case _ =>
  }

  /** The number of the message a window remembers as its escape. */
  function EscapeOf(w: Window): set<u64> {
    if w.escapeBytes != 0 then {w.escapeSeq} else {}
  }

  /** Every operation forgets the escape exactly when its message ends. */
  lemma EscapeKept(w: Window, op: Op)
    requires Inv(w) && Enabled(w, op) && !op.Add?
    ensures StillOver(EscapeOf(w), Apply(w, op)) == EscapeOf(Apply(w, op))
  {
    ApplyKeeps(w, op);
    var x := Apply(w, op);
    if op.Shut? {
      CloseKeeps(w);
    } else {
      OpFollows(w, op, w.escapeSeq);
      if x.escapeBytes != 0 { assert SlotOk(x, Pos(x, x.escapeSeq)); }
    }
  }

  // ----- Delivery resets -----

  lemma NotYetSpent(w: Window, x: Window, j: nat)
    requires Spent(w, x, j) && j < |w.tracked|
    ensures ToRetire(x, w.tracked[j]) == ToRetire(w, w.tracked[j])
  {
    assert EntryOk(w, w.tracked[j]);
  }

  lemma RetireForgets(w: Window, e: Entry, sn: u64)
    requires Core(w) && Pos(w, sn) < |w.slots|
    ensures var x := RetireIfSpent(w, e);
      && x.lastFlagged == (if ToRetire(w, e) && w.lastFlagged == e.sn then 0 else w.lastFlagged)
      && Ended(x, sn) == (Ended(w, sn) || (e.sn == sn && ToRetire(w, e)))
  {
    if ToRetire(w, e) {
      assert SlotOk(w, Pos(w, e.sn));
      SamePos(w.first, e.sn, sn);
    }
  }

  lemma SamePos(first: u64, a: u64, b: u64)
    ensures Minus(a, first) == Minus(b, first) <==> a == b
  {
  }

  lemma LastSentStep(w: Window, sn: u64, j: nat)
    requires 0 < j <= |w.tracked|
    ensures LastSent(w, sn, j)
            <==> LastSent(w, sn, j - 1) || (w.tracked[j - 1].sn == sn && ToRetire(w, w.tracked[j - 1]))
  {
  }

  /** A pass over the tracked frames ends a held message, and forgets the latest request, exactly if
      it retires them. */
  lemma {:induction false} SpentForgets(w: Window, sn: u64, j: nat)
    requires Core(w) && Counted(w) && Tracking(w) && Pos(w, sn) < |w.slots| && j <= |w.tracked|
    ensures var x := RetireSpent(w, j);
      && x.lastFlagged == (if LastSent(w, w.lastFlagged, j) then 0 else w.lastFlagged)
      && Ended(x, sn) == (Ended(w, sn) || LastSent(w, sn, j))
  {
    if j > 0 {
      SpentForgets(w, sn, j - 1);
      RetireSpentKeeps(w, j - 1);
      NotYetSpent(w, RetireSpent(w, j - 1), j - 1);
      RetireForgets(RetireSpent(w, j - 1), w.tracked[j - 1], sn);
      LastSentStep(w, w.lastFlagged, j);
      LastSentStep(w, sn, j);
    }
  }

  lemma ReleaseHeadEnds(w: Window, sn: u64)
    requires Core(w) && Plain(w)
    ensures Plain(ReleaseHead(w)) && ReleaseHead(w).lastFlagged == w.lastFlagged
    ensures ReleaseHead(w).closed == w.closed && Ended(ReleaseHead(w), sn) == Ended(w, sn)
  {
    RunRetired(w.slots);
    var n := RetiredRun(w.slots);
    if n <= Pos(w, sn) { PosShift(w.first, sn, n); }
  }

  lemma ResetForgets(w: Window, sn: u64)
    requires Inv(w) && Plain(w) && Pos(w, sn) < |w.slots|
    ensures Plain(Reset(w)) && Reset(w).closed == w.closed
    ensures Reset(w).lastFlagged == (if LastSent(w, w.lastFlagged, |w.tracked|) then 0 else w.lastFlagged)
    ensures Ended(Reset(w), sn) == (Ended(w, sn) || LastSent(w, sn, |w.tracked|))
  {
    var v := w.(deliver := 0);
    RestartKeeps(w);
    SpentForgets(v, sn, |v.tracked|);
    RetireSpentKeeps(v, |v.tracked|);
    assert LastSent(v, v.lastFlagged, |v.tracked|) == LastSent(w, w.lastFlagged, |w.tracked|);
    assert LastSent(v, sn, |v.tracked|) == LastSent(w, sn, |w.tracked|);
    ReleaseHeadEnds(RetireSpent(v, |v.tracked|), sn);
  }

  lemma HeldNumber(w: Window, sn: u64)
    requires Plain(w) && Pos(w, sn) < |w.slots|
    ensures w.first <= sn
  {
  }

  /** A held message survives a reset exactly if it did not have its last transmission. */
  lemma ResetKeepsOver(c: Client, x: Client, sn: u64)
    requires Inv(c.w) && Plain(c.w) && Carried(c) && sn in c.over
    requires x.w == Reset(c.w) && x.over == StillOver(c.over, x.w)
    ensures sn in x.over <==> !LastSent(c.w, sn, |c.w.tracked|)
    ensures sn in x.over ==> x.w.first <= sn
    ensures x.w.lastFlagged == (if LastSent(c.w, c.w.lastFlagged, |c.w.tracked|) then 0 else c.w.lastFlagged)
  {
    assert sn in StillOver(c.over, c.w);
    ResetForgets(c.w, sn);
    if sn in x.over { HeldNumber(x.w, sn); }
  }

  /** Exactly the safe resets leave every held overshooting message with a request that will end it. */
  lemma RestartAsksIff(c: Client, x: Client)
    requires Inv(c.w) && Plain(c.w) && Carried(c) && OverAsks(c)
    requires x.w == Reset(c.w) && x.over == StillOver(c.over, x.w)
    ensures OverAsks(x) <==> SafeRestart(c)
  {
    forall sn | sn in c.over
      ensures sn in x.over <==> !LastSent(c.w, sn, |c.w.tracked|)
      ensures sn in x.over ==> x.w.first <= sn
      ensures x.w.lastFlagged == (if LastSent(c.w, c.w.lastFlagged, |c.w.tracked|) then 0 else c.w.lastFlagged)
    {
      ResetKeepsOver(c, x, sn);
    }
  }

  /** Without transmission limits every reset is safe. */
  lemma UnlimitedIsSafe(c: Client)
    requires forall e | e in c.w.tracked :: e.max == 0
    ensures SafeRestart(c)
  {
    forall k | 0 <= k < |c.w.tracked| ensures !ToRetire(c.w, c.w.tracked[k]) { assert c.w.tracked[k] in c.w.tracked; }
  }

  // ----- Every operation -----

  lemma AckAsks(w: Window, k: nat, sn: u64)
    requires Inv(w) && Plain(w) && k <= |w.slots| && HeldFlagged(w) && w.first <= sn <= w.lastFlagged
    requires Pos(AckBy(w, k), sn) < |AckBy(w, k).slots|
    ensures Plain(AckBy(w, k)) && HeldFlagged(AckBy(w, k)) && AckBy(w, k).first <= sn <= AckBy(w, k).lastFlagged
  {
    if k > 0 {
      RemoveKeeps(w, k, true);
      ReleaseHeadEnds(Remove(w, k, true), sn);
    }
    HeldNumber(AckBy(w, k), sn);
  }

  lemma AckKeepsAsking(c: Client, k: nat, x: Client)
    requires Inv(c.w) && Plain(c.w) && OverAsks(c) && k <= |c.w.slots|
    requires x.w == AckBy(c.w, k) && x.over == StillOver(c.over, x.w)
    ensures OverAsks(x)
  {
    forall sn | sn in x.over ensures HeldFlagged(x.w) && x.w.first <= sn <= x.w.lastFlagged { AckAsks(c.w, k, sn); }
  }

  /** Every operation but an unsafe reset keeps a request that will end the overshooting messages. */
  lemma OverKept(c: Client, op: Op, x: Client)
    requires Inv(c.w) && Plain(c.w) && Carried(c) && OverAsks(c)
    requires Enabled(c.w, op) && !op.Add? && (op == Restart ==> SafeRestart(c))
    requires x.w == Apply(c.w, op) && x.over == StillOver(c.over, x.w)
    ensures OverAsks(x)
  {
    match op
    case Confirmed(sn, backing) => AckKeepsAsking(c, AckCount(c.w, sn, backing), x);
    case Deliver => NextExact(c.w);
    case Restart => RestartAsksIff(c, x);
    case _ =>
  }
}
