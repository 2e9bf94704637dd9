/** A window never returns more, or less, than it was charged: the refunds of every operation are
    exactly the drop of its byte count, and no escape is returned without its bytes. */
module WindowLedger {
  import opened Words
  import opened Tables
  import opened WindowSpec
  import opened WindowLaws
  import opened WindowRuns
  import opened Clients

  /** What a window holds, and how much of it is an escape. */
  datatype Balance = Balance(bytes: nat, escape: nat)

  function BalanceOf(w: Window): Balance {
    Balance(w.bytes, w.escapeBytes)
  }

  /** The refunds lead from one balance to another, never below the escape part. */
  ghost predicate Repaid(rs: seq<Refund>, before: Balance, after: Balance) {
    if |rs| == 0 then after == before
    else
      var r := rs[|rs| - 1];
      r.escape <= r.bytes && after.escape <= after.bytes
      && Repaid(rs[..|rs| - 1], before, Balance(after.bytes + r.bytes, after.escape + r.escape))
  }

  lemma {:induction false} RepaidOne(r: Refund, before: Balance, after: Balance)
    requires r.escape <= r.bytes && after.escape <= after.bytes
    requires before == Balance(after.bytes + r.bytes, after.escape + r.escape)
    ensures Repaid([r], before, after)
  {
    assert [r][..0] == [];
  }

  lemma {:induction false} RepaidMore(rs: seq<Refund>, r: Refund, before: Balance, mid: Balance, after: Balance)
    requires Repaid(rs, before, mid) && mid == Balance(after.bytes + r.bytes, after.escape + r.escape)
    requires r.escape <= r.bytes && after.escape <= after.bytes
    ensures Repaid(rs + [r], before, after)
  {
    assert (rs + [r])[..|rs|] == rs;
  }

  lemma {:induction false} RepaidConcat(rs: seq<Refund>, ss: seq<Refund>, before: Balance, mid: Balance, after: Balance)
    requires Repaid(rs, before, mid) && Repaid(ss, mid, after)
    ensures Repaid(rs + ss, before, after)
    decreases |ss|
  {
    if |ss| == 0 {
      assert rs + ss == rs;
    } else {
      var init, r := ss[..|ss| - 1], ss[|ss| - 1];
      RepaidConcat(rs, init, before, mid, Balance(after.bytes + r.bytes, after.escape + r.escape));
      assert (rs + ss)[..|rs + ss| - 1] == rs + init;
    }
  }

  /** Refund `r` leads from one balance to the next. */
  ghost predicate Pays(r: Refund, before: Balance, after: Balance) {
    && r.escape <= r.bytes && after.escape <= after.bytes
    && before == Balance(after.bytes + r.bytes, after.escape + r.escape)
  }

  /** The balances a series of refunds passes through. */
  lemma {:induction false} Balances(rs: seq<Refund>, before: Balance, after: Balance) returns (bs: seq<Balance>)
    requires Repaid(rs, before, after)
    ensures |bs| == |rs| + 1 && bs[0] == before && bs[|rs|] == after
    ensures forall i | 0 <= i < |rs| :: Pays(rs[i], bs[i], bs[i + 1])
    decreases |rs|
  {
    if |rs| == 0 {
      bs := [before];
    } else {
      var n := |rs| - 1;
      var init := Balances(rs[..n], before, Balance(after.bytes + rs[n].bytes, after.escape + rs[n].escape));
      bs := init + [after];
      forall i | 0 <= i < |rs| ensures Pays(rs[i], bs[i], bs[i + 1]) {
        if i < n { assert rs[..n][i] == rs[i]; }
      }
    }
  }

  lemma EscapeInside(w: Window)
    requires Core(w) && Counted(w)
    ensures w.escapeBytes <= w.bytes
  {
    if w.escapeBytes != 0 { SumAtLeast(w.slots, Pos(w, w.escapeSeq), SizeOf()); }
  }

  lemma RemoveRepays(w: Window, k: nat, acked: bool)
    requires Core(w) && Counted(w) && Tracking(w) && k <= |w.slots|
    ensures Repaid([RemoveRefund(w, k)], BalanceOf(w), BalanceOf(Remove(w, k, acked)))
  {
    RemoveKeeps(w, k, acked);
    EscapeInside(Remove(w, k, acked));
    RepaidOne(RemoveRefund(w, k), BalanceOf(w), BalanceOf(Remove(w, k, acked)));
  }

  lemma ReleaseHeadRepays(w: Window)
    requires Core(w) && Counted(w) && Tracking(w)
    ensures Repaid(ReleaseRefunds(w), BalanceOf(w), BalanceOf(ReleaseHead(w)))
  {
    var n := RetiredRun(w.slots);
    if n > 0 {
      var y := w.(ring := RememberRun(w.ring, w.first, n));
      RingBounded(w.ring, w.first, n);
      forall i | 0 <= i < |y.slots| ensures SlotOk(y, i) { assert SlotOk(w, i); }
      forall j | 0 <= j < |y.tracked| ensures EntryOk(y, y.tracked[j]) { assert EntryOk(w, w.tracked[j]); }
      RemoveRepays(y, n, false);
    }
  }

  lemma {:induction false} SpentRepays(w: Window, j: nat)
    requires Core(w) && Counted(w) && Tracking(w) && j <= |w.tracked|
    ensures Repaid(SpentRefunds(w, j), BalanceOf(w), BalanceOf(RetireSpent(w, j)))
  {
    if j > 0 {
      SpentRepays(w, j - 1);
      SpentRepaysNext(w, j - 1, BalanceOf(w));
    }
  }

  lemma SpentRepaysNext(w: Window, j: nat, before: Balance)
    requires Core(w) && Counted(w) && Tracking(w) && j < |w.tracked|
    requires Repaid(SpentRefunds(w, j), before, BalanceOf(RetireSpent(w, j)))
    ensures Repaid(SpentRefunds(w, j + 1), before, BalanceOf(RetireSpent(w, j + 1)))
  {
    SpentLawful(w, j);
    EntryRepays(RetireSpent(w, j), j, SpentRefunds(w, j), before, RetireSpent(w, j + 1));
  }

  lemma SpentLawful(w: Window, j: nat)
    requires Core(w) && Counted(w) && Tracking(w) && j <= |w.tracked|
    ensures Core(RetireSpent(w, j)) && Counted(RetireSpent(w, j)) && Tracking(RetireSpent(w, j))
  {
    RetireSpentKeeps(w, j);
  }

  /** One more entry of the pass. */
  lemma EntryRepays(x: Window, j: nat, rs: seq<Refund>, before: Balance, y: Window)
    requires Core(x) && Counted(x) && Tracking(x) && j < |x.tracked| && Repaid(rs, before, BalanceOf(x))
    requires y == RetireIfSpent(x, x.tracked[j])
    ensures var e := x.tracked[j];
      Repaid(rs + if ToRetire(x, e) then [RetireRefund(x, Pos(x, e.sn))] else [], before, BalanceOf(y))
  {
    var e := x.tracked[j];
    if ToRetire(x, e) {
      RetireRepays(x, j);
      RepaidMore(rs, RetireRefund(x, Pos(x, e.sn)), before, BalanceOf(x), BalanceOf(y));
    } else {
      assert rs + [] == rs;
    }
  }

  lemma RetireRepays(w: Window, j: nat)
    requires Core(w) && Counted(w) && Tracking(w) && j < |w.tracked| && ToRetire(w, w.tracked[j])
    ensures var r, x := RetireRefund(w, Pos(w, w.tracked[j].sn)), RetireIfSpent(w, w.tracked[j]);
      && r.escape <= r.bytes && x.escapeBytes <= x.bytes
      && BalanceOf(w) == Balance(x.bytes + r.bytes, x.escapeBytes + r.escape)
  {
    RetireKeeps(w, j);
    EscapeInside(RetireIfSpent(w, w.tracked[j]));
  }

  lemma AckRepays(w: Window, k: nat)
    requires Inv(w) && k <= |w.slots|
    ensures Repaid(AckRefunds(w, k), BalanceOf(w), BalanceOf(AckBy(w, k)))
  {
    if k > 0 {
      var x := Remove(w, k, true);
      RemoveKeeps(w, k, true);
      RemoveRepays(w, k, true);
      ReleaseHeadRepays(x);
      RepaidConcat([RemoveRefund(w, k)], ReleaseRefunds(x), BalanceOf(w), BalanceOf(x), BalanceOf(ReleaseHead(x)));
    }
  }

  lemma ResetRepays(w: Window)
    requires Inv(w)
    ensures Repaid(ResetRefunds(w), BalanceOf(w), BalanceOf(Reset(w)))
  {
    var v := w.(deliver := 0);
    RestartKeeps(w);
    SpentRepays(v, |v.tracked|);
    RetireSpentKeeps(v, |v.tracked|);
    var x := RetireSpent(v, |v.tracked|);
    ReleaseHeadRepays(x);
    RepaidConcat(SpentRefunds(v, |v.tracked|), ReleaseRefunds(x), BalanceOf(w), BalanceOf(x), BalanceOf(ReleaseHead(x)));
  }

  /** Conservation: every operation hands back exactly what its window stops holding. */
  lemma RefundsExact(w: Window, op: Op)
    requires Inv(w) && Enabled(w, op) && !op.Add?
    ensures Repaid(Refunds(w, op), BalanceOf(w), BalanceOf(Apply(w, op)))
  {
    match op
    case Confirmed(sn, backing) => AckRepays(w, AckCount(w, sn, backing));
    case Deliver => NextExact(w);
    case Restart => ResetRepays(w);
    case Shut =>
      CloseKeeps(w);
      RepaidOne(CloseRefund(w), BalanceOf(w), BalanceOf(Close(w)));
    case _ =>
  }

  // ----- What no operation changes -----

  lemma ClosedKept(w: Window, op: Op)
    requires Inv(w) && Enabled(w, op) && !op.Add?
    ensures Apply(w, op).closed == (w.closed || op.Shut?) && Apply(w, op).accounting == w.accounting
  {
    match op
    case Confirmed(sn, backing) => AckClosed(w, AckCount(w, sn, backing));
    case Deliver => NextExact(w);
    case Restart => ResetClosed(w);
    case _ =>
  }

  lemma AckClosed(w: Window, k: nat)
    requires k <= |w.slots| <= MAX_SLOTS
    ensures AckBy(w, k).closed == w.closed && AckBy(w, k).accounting == w.accounting
  {
  }

  lemma {:induction false} SpentAccounting(w: Window, j: nat)
    requires j <= |w.tracked|
    ensures RetireSpent(w, j).accounting == w.accounting
  {
    if j > 0 { SpentAccounting(w, j - 1); }
  }

  lemma ResetClosed(w: Window)
    requires |w.slots| <= MAX_SLOTS
    ensures Reset(w).closed == w.closed && Reset(w).accounting == w.accounting
  {
    SpentAccounting(w.(deliver := 0), |w.tracked|);
  }
}
