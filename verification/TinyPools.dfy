/** A fair budget so small that no message fits it: every admission overshoots, and no waiter is ever granted,
    also after escapes were lost. */
module TinyPools {
  import opened Words
  import opened Tables
  import opened BudgetSpec
  import opened BudgetShape
  import BL = BudgetLaws
  import BT = BudgetTheorems
  import opened BudgetEffects
  import opened WindowSpec
  import WL = WindowLaws
  import opened WindowRuns
  import opened Clients
  import opened WindowLedger
  import opened Overshooting
  import opened ClientLedger
  import opened LedgerRuns
  import opened LedgerTheorems

  // ----- The pool -----

  ghost function Credited0(p: Pool): nat { Sum(p.waiters, CreditNow()) }

  /** How far the escapes of a pool exceed what its clients hold. */
  ghost function Excess(p: Pool): int { p.escape + Credited0(p) - p.used }

  /** Nothing, or at least a message. */
  predicate Coarse(n: int) { n == 0 || n >= OVERHEAD }

  ghost predicate Hungry(w: Waiter) {
    !w.done ==> !w.granted && w.n >= OVERHEAD
  }

  ghost predicate Starved(p: Pool) {
    && BL.Inv(p) && 0 < p.total < OVERHEAD
    && Coarse(Excess(p)) && Credited0(p) <= p.total
    && forall w | 0 <= w < |p.waiters| :: Hungry(p.waiters[w])
  }

  /** The escape counter has not come near its wrap. */
  ghost predicate Counting(p: Pool) { p.escape + OVERHEAD <= TWO64 }

  lemma {:induction false} CreditOfGroups(p: Pool, n: nat)
    requires n <= |p.groups| && forall g | 0 <= g < |p.groups| :: BL.Backed(p, g)
    ensures Sum(p.waiters, CreditBelow(n)) <= Sum(p.groups[..n], BL.UsedOf())
  {
    if n == 0 {
      SumZero(p.waiters, CreditBelow(0));
    } else {
      CreditOfGroups(p, n - 1);
      assert p.groups[..n] == p.groups[..n - 1] + [p.groups[n - 1]];
      SumAppend(p.groups[..n - 1], p.groups[n - 1], BL.UsedOf());
      SumPlus(p.waiters, CreditBelow(n - 1), BL.CreditIn(n - 1), CreditBelow(n));
      assert BL.Backed(p, n - 1);
    }
  }

  lemma CreditWithinUsed(p: Pool)
    requires BL.Inv(p)
    ensures Credited0(p) <= p.used
  {
    var n := |p.groups|;
    assert p.groups[..n] == p.groups;
    CreditOfGroups(p, n);
    forall w | 0 <= w < |p.waiters| ensures CreditBelow(n)(p.waiters[w]) == CreditNow()(p.waiters[w]) {
      assert WaiterShape(p, w);
    }
    SumSame(p.waiters, CreditBelow(n), CreditNow());
  }

  /** Whenever the scheduler has a turn to give, bytes under the cap are the credits of waiters. */
  lemma NetIsCredit(p: Pool)
    requires Starved(p) && Counting(p) && Net(p) < p.total
    ensures Excess(p) == 0 && Net(p) == Credited0(p)
  {
    CreditWithinUsed(p);
  }

  lemma TurnStarves(p: Pool, g: nat)
    requires Starved(p) && Counting(p) && MayPick(p, g)
    ensures Starved(Credit(p, g)) && Credit(p, g).escape == p.escape
  {
    var q, h := Credit(p, g), p.groups[g].queue[0];
    BL.TurnKeepsInv(p, g);
    CreditEffect(p, g);
    BT.TurnProgress(p, g);
    NetIsCredit(p);
    SumUpdate(p.waiters, h, q.waiters[h], CreditNow());
    SumAtLeast(q.waiters, h, CreditNow());
    assert Hungry(p.waiters[h]) && Hungry(q.waiters[h]);
    forall w | 0 <= w < |q.waiters| ensures Hungry(q.waiters[w]) { assert Hungry(p.waiters[w]); }
  }

  lemma {:induction false} TurnsStarve(p: Pool, picks: seq<nat>)
    requires Starved(p) && Counting(p) && Legal(p, picks)
    ensures Starved(Credits(p, picks)) && Credits(p, picks).escape == p.escape
  {
    if |picks| > 0 {
      TurnsStarve(p, picks[..|picks| - 1]);
      TurnStarves(Credits(p, picks[..|picks| - 1]), picks[|picks| - 1]);
    }
  }

  lemma SettledStarves(p: Pool, q: Pool)
    requires Starved(p) && (Counting(p) || Counting(q)) && Settled(p, q)
    ensures Starved(q) && q.escape == p.escape
  {
    var picks :| Legal(p, picks) && q == Credits(p, picks) && Quiet(q);
    EscapeOfTurns(p, picks);
    TurnsStarve(p, picks);
  }

  lemma {:induction false} EscapeOfTurns(p: Pool, picks: seq<nat>)
    ensures Credits(p, picks).escape == p.escape
  {
    if |picks| > 0 { EscapeOfTurns(p, picks[..|picks| - 1]); }
  }

  lemma ArriveStarves(p: Pool, n: nat, g: nat)
    requires Starved(p) && BL.Due(p, BL.Arrive(n, g)) && n >= OVERHEAD
    ensures Starved(Enqueue(p, n, g))
  {
    BL.ArriveKeepsInv(p, n, g);
    EnqueueEffect(p, n, g);
    ArrivedStarves(p, n, g, Enqueue(p, n, g));
  }

  lemma ArrivedStarves(p: Pool, n: nat, g: nat, q: Pool)
    requires Starved(p) && n >= OVERHEAD && BL.Inv(q) && q.waiters == p.waiters + [Waiter(n, 0, g, false, false)]
    requires q.total == p.total && q.used == p.used && q.escape == p.escape
    ensures Starved(q)
  {
    SumAppend(p.waiters, q.waiters[|p.waiters|], CreditNow());
    forall w | 0 <= w < |q.waiters| ensures Hungry(q.waiters[w]) {
      if w < |p.waiters| { assert Hungry(p.waiters[w]); }
    }
  }

  lemma LeaveStarves(p: Pool, w: nat)
    requires Starved(p) && BL.Due(p, BL.Leave(w))
    ensures Starved(RemoveWaiter(p, w)) && RemoveWaiter(p, w).escape == p.escape
  {
    var q := RemoveWaiter(p, w);
    BL.LeaveKeepsInv(p, w);
    BL.LeftGroup(p, w);
    SumUpdate(p.waiters, w, q.waiters[w], CreditNow());
    forall v | 0 <= v < |q.waiters| ensures Hungry(q.waiters[v]) { assert Hungry(p.waiters[v]); }
  }

  lemma PayStarves(p: Pool, n: nat, g: nat)
    requires Starved(p) && BL.Due(p, BL.Pay(n, g, true))
    ensures Starved(Charge(p, n, g, true))
  {
    BL.PayKeepsInv(p, n, g, true);
  }

  lemma RefundStarves(p: Pool, n: nat, back: nat, g: nat)
    requires Starved(p) && BL.Due(p, BL.Refund(n, back, g)) && Coarse(n - back)
    ensures Starved(Release(p, n, back, g)) && Release(p, n, back, g).escape <= p.escape
  {
    BL.RefundKeepsInv(p, n, back, g);
    BL.GroupWithin(p, g);
  }

  // ----- Operations on the pool -----

  lemma CancelStarves(p: Pool, w: nat, q: Pool)
    requires Starved(p) && Counting(p) && BL.Due(p, BL.Leave(w)) && Cancelled(p, w, q)
    ensures Starved(q)
  {
    LeaveStarves(p, w);
    SettledStarves(RemoveWaiter(p, w), q);
  }

  /** Every reservation is refused, or overshoots. */
  lemma ReserveStarves(p: Pool, n: nat, force: bool, g: nat, w: Option<nat>, q: Pool)
    requires Starved(p) && n >= OVERHEAD && Known(p, g, w) && p.groups[g].pending < p.groups[g].refs
    requires Reserved(p, n, force, g, w, q, Ask(p, n, force, g, w)) && Counting(q)
    ensures Starved(q) && Ask(p, n, force, g, w).ok == Ask(p, n, force, g, w).overshot
  {
    var r := Ask(p, n, force, g, w);
    if w.Some? { assert Hungry(p.waiters[w.value]); }
    if w.None? || force {
      var m := if w.Some? then RemoveWaiter(p, w.value) else p;
      if w.Some? {
        LeaveStarves(p, w.value);
        BT.LeaveRefs(p, w.value);
      }
      if force { PayStarves(m, n, g); } else { ArriveStarves(m, n, g); }
      if r.schedule { SettledStarves(r.pool, q); }
    }
  }

  lemma ReleaseStarves(p: Pool, n: nat, back: nat, g: nat, q: Pool)
    requires Starved(p) && Counting(p) && BL.Due(p, BL.Refund(n, back, g)) && Coarse(n - back)
    requires Released(p, n, back, g, q)
    ensures Starved(q) && Counting(q)
  {
    if n != 0 {
      RefundStarves(p, n, back, g);
      SettledStarves(Release(p, n, back, g), q);
    }
  }

  // ----- Refunds of a window -----

  ghost predicate CoarseRefunds(rs: seq<Refund>) {
    forall i | 0 <= i < |rs| :: Coarse(rs[i].bytes - rs[i].escape)
  }

  /** Every live slot holds a real message. */
  ghost predicate Heavy(slots: seq<Slot>) {
    forall i | 0 <= i < |slots| :: Coarse(slots[i].size)
  }

  lemma {:induction false} HeavySum(slots: seq<Slot>)
    requires Heavy(slots)
    ensures Coarse(Sum(slots, SizeOf()))
  {
    if |slots| > 0 { HeavySum(slots[..|slots| - 1]); }
  }

  /** Without one of its slots a run of slots still weighs nothing or at least a message. */
  lemma HeavyRest(slots: seq<Slot>, i: nat)
    requires Heavy(slots) && i < |slots|
    ensures Coarse(Sum(slots, SizeOf()) - slots[i].size)
  {
    var x := slots[i].(size := 0);
    SumUpdate(slots, i, x, SizeOf());
    HeavySum(slots[i := x]);
  }

  lemma RemoveCoarse(w: Window, k: nat)
    requires WL.Core(w) && WL.Counted(w) && Heavy(w.slots) && k <= |w.slots|
    ensures Coarse(RemoveRefund(w, k).bytes - RemoveRefund(w, k).escape)
  {
    WL.RemoveCounted(w, k, true);
    if !w.closed {
      HeavySum(w.slots[..k]);
      if w.escapeBytes != 0 && Pos(w, w.escapeSeq) < k { HeavyRest(w.slots[..k], Pos(w, w.escapeSeq)); }
    }
  }

  lemma CloseCoarse(w: Window)
    requires WL.Inv(w) && Heavy(w.slots)
    ensures Coarse(CloseRefund(w).bytes - CloseRefund(w).escape)
  {
    WL.CloseKeeps(w);
    if !w.closed {
      HeavySum(w.slots);
      if w.escapeBytes != 0 { HeavyRest(w.slots, Pos(w, w.escapeSeq)); }
    }
  }

  lemma HeadCoarse(w: Window)
    requires WL.Core(w) && WL.Counted(w) && Heavy(w.slots)
    ensures CoarseRefunds(ReleaseRefunds(w)) && Heavy(ReleaseHead(w).slots)
  {
    RemoveCoarse(w, RetiredRun(w.slots));
  }

  lemma AckCoarse(w: Window, k: nat)
    requires WL.Inv(w) && Heavy(w.slots) && k <= |w.slots|
    ensures CoarseRefunds(AckRefunds(w, k)) && Heavy(AckBy(w, k).slots)
  {
    if k > 0 {
      RemoveCoarse(w, k);
      RemovedHead(w, k);
    }
  }

  lemma RemovedHead(w: Window, k: nat)
    requires WL.Inv(w) && Heavy(w.slots) && k <= |w.slots|
    ensures CoarseRefunds(ReleaseRefunds(Remove(w, k, true))) && Heavy(ReleaseHead(Remove(w, k, true)).slots)
  {
    WL.RemoveKeeps(w, k, true);
    assert Heavy(w.slots[k..]);
    HeadCoarse(Remove(w, k, true));
  }

  lemma RetireCoarse(w: Window, e: Entry)
    requires WL.Core(w) && WL.Counted(w) && Heavy(w.slots)
    ensures Heavy(RetireIfSpent(w, e).slots)
    ensures ToRetire(w, e) ==>
      Coarse(RetireRefund(w, Pos(w, e.sn)).bytes - RetireRefund(w, Pos(w, e.sn)).escape)
  {
    if ToRetire(w, e) {
      assert WL.SlotOk(w, Pos(w, e.sn));
      SumAtLeast(w.slots, Pos(w, e.sn), SizeOf());
    }
  }

  lemma {:induction false} SpentCoarse(w: Window, j: nat)
    requires WL.Core(w) && WL.Counted(w) && WL.Tracking(w) && Heavy(w.slots) && j <= |w.tracked|
    ensures CoarseRefunds(SpentRefunds(w, j)) && Heavy(RetireSpent(w, j).slots)
  {
    if j > 0 {
      SpentCoarse(w, j - 1);
      SpentCoarseNext(w, j - 1);
    }
  }

  lemma SpentCoarseNext(w: Window, j: nat)
    requires WL.Core(w) && WL.Counted(w) && WL.Tracking(w) && j < |w.tracked|
    requires CoarseRefunds(SpentRefunds(w, j)) && Heavy(RetireSpent(w, j).slots)
    ensures CoarseRefunds(SpentRefunds(w, j + 1)) && Heavy(RetireSpent(w, j + 1).slots)
  {
    SpentLawful(w, j);
    RetireCoarse(RetireSpent(w, j), w.tracked[j]);
  }

  lemma ResetCoarse(w: Window)
    requires WL.Inv(w) && Heavy(w.slots)
    ensures CoarseRefunds(ResetRefunds(w)) && Heavy(Reset(w).slots)
  {
    var v := w.(deliver := 0);
    WL.RestartKeeps(w);
    SpentCoarse(v, |v.tracked|);
    SpentLawful(v, |v.tracked|);
    HeadCoarse(RetireSpent(v, |v.tracked|));
  }

  lemma OpCoarse(w: Window, op: Op)
    requires WL.Inv(w) && Enabled(w, op) && !op.Add? && Heavy(w.slots)
    ensures CoarseRefunds(Refunds(w, op)) && Heavy(Apply(w, op).slots)
  {
    match op
    case Confirmed(sn, backing) => AckCoarse(w, AckCount(w, sn, backing));
    case Deliver => WL.NextExact(w);
    case Restart => ResetCoarse(w);
    case Shut => CloseCoarse(w);
    case _ =>
  }

  /** A starved pool that can take back a balance from a client of group `g`. */
  ghost predicate Owes(p: Pool, g: nat, b: Balance) {
    Covers(p, g, b) && Starved(p) && Counting(p)
  }

  lemma OneStarves(p: Pool, r: Refund, g: nat, q: Pool, before: Balance, after: Balance)
    requires Owes(p, g, before) && Released(p, r.bytes, r.escape, g, q) && Coarse(r.bytes - r.escape)
    requires Pays(r, before, after)
    ensures Owes(q, g, after)
  {
    var bytes, escape := 0 - r.bytes, 0 - r.escape;
    OneRefund(p, r, g, q, before, after, bytes, escape);
    if r.bytes != 0 { ReleaseStarves(p, r.bytes, r.escape, g, q); }
  }

  /** A series of refunds that a window owes. */
  lemma {:induction false} RefundsStarve(rs: seq<Refund>, g: nat, pools: seq<Pool>, bs: seq<Balance>, i: nat)
    requires Chain(rs, g, pools) && CoarseRefunds(rs) && i <= |rs| == |bs| - 1 && Owes(pools[0], g, bs[0])
    requires forall k | 0 <= k < |rs| :: Pays(rs[k], bs[k], bs[k + 1])
    ensures Owes(pools[i], g, bs[i])
  {
    if i > 0 {
      RefundsStarve(rs, g, pools, bs, i - 1);
      OneStarves(pools[i - 1], rs[i - 1], g, pools[i], bs[i - 1], bs[i]);
    }
  }

  // ----- Every run -----

  ghost predicate Tight(s: System) {
    && Ledger(s) && Starved(s.pool)
    && (forall c | 0 <= c < |s.clients| :: Heavy(s.clients[c].w.slots))
    && (forall i | 0 <= i < |s.adders| :: s.adders[i].r.size >= OVERHEAD)
  }

  /** The pool after the refunds of an operation. */
  lemma RefundedTight(s: System, c: nat, op: Op, m: Pool)
    requires Tight(s) && Counting(s.pool) && c < |s.clients| && !op.Add? && Enabled(s.clients[c].w, op)
    requires ReleasedAll(s.pool, Refunds(s.clients[c].w, op), s.clients[c].group, m)
    ensures Starved(m)
  {
    var w, g, rs := s.clients[c].w, s.clients[c].group, Refunds(s.clients[c].w, op);
    assert ClientOk(s, s.clients[c]) && Heavy(w.slots);
    var pools :| Chain(rs, g, pools) && pools[0] == s.pool && pools[|rs|] == m;
    OpCoarse(w, op);
    RefundsExact(w, op);
    ClientCovered(s, c);
    var bs := Balances(rs, BalanceOf(w), BalanceOf(Apply(w, op)));
    RefundsStarve(rs, g, pools, bs, |rs|);
  }

  lemma UnrefStarves(m: Pool, g: nat)
    requires Starved(m) && g < |m.groups| && BL.Inv(Unref(m, g))
    ensures Starved(Unref(m, g))
  {
  }

  lemma OperateTight(s: System, c: nat, op: Op, t: System)
    requires Tight(s) && Counting(s.pool) && Stepped(s, Operate(c, op), t) && BL.Inv(t.pool)
    ensures Starved(t.pool)
  {
    var w, g := s.clients[c].w, s.clients[c].group;
    var m :| ReleasedAll(s.pool, Refunds(w, op), g, m)
             && t.pool == if op.Shut? && s.pool.fair && !w.closed && g < |m.groups| then Unref(m, g) else m;
    RefundedTight(s, c, op, m);
    if t.pool != m { UnrefStarves(m, g); }
  }

  lemma AttemptHeavy(s: System, i: nat, t: System)
    requires Tight(s) && Stepped(s, Attempt(i), t)
    ensures Heavy(t.clients[s.adders[i].client].w.slots)
  {
    assert Heavy(s.clients[s.adders[i].client].w.slots);
    AttemptGrows(s, i, t);
  }

  /** Clients hold only real messages. */
  lemma StepHeavy(s: System, m: Move, t: System)
    requires Tight(s) && Stepped(s, m, t)
    ensures forall c | 0 <= c < |t.clients| :: Heavy(t.clients[c].w.slots)
  {
    match m
    case Operate(c, op) =>
      assert ClientOk(s, s.clients[c]) && Heavy(s.clients[c].w.slots);
      OpCoarse(s.clients[c].w, op);
    case Attempt(i) => AttemptHeavy(s, i, t);
    case _ =>
  }

  lemma DropTight(s: System, i: nat, q: Pool)
    requires Tight(s) && Counting(s.pool) && i < |s.adders|
    requires if s.adders[i].waiter.Some? then Cancelled(s.pool, s.adders[i].waiter.value, q) else q == s.pool
    ensures Starved(q)
  {
    assert AdderOk(s, s.adders[i]);
    if s.adders[i].waiter.Some? {
      assert ClientOk(s, s.clients[s.adders[i].client]);
      CancelStarves(s.pool, s.adders[i].waiter.value, q);
    }
  }

  lemma AttemptTight(s: System, i: nat, t: System)
    requires Tight(s) && Counting(s.pool) && Counting(t.pool) && Stepped(s, Attempt(i), t)
    ensures Starved(t.pool)
    ensures t.adders[i].stage == Gone ==> Overshoots(s, Attempt(i))
  {
    var a, c := s.adders[i], s.clients[s.adders[i].client];
    if RefusedLocally(c.w, a.r.size) {
      DropTight(s, i, t.pool);
    } else {
      assert AdderOk(s, a) && ClientOk(s, c);
      OpenMember(s, a.client);
      ReserveStarves(s.pool, a.r.size, !HeldFlagged(c.w), c.group, a.waiter, t.pool);
    }
  }

  lemma StepStarves(s: System, m: Move, t: System)
    requires Tight(s) && Counting(s.pool) && Counting(t.pool) && Stepped(s, m, t) && BL.Inv(t.pool)
    ensures Starved(t.pool)
  {
    match m
    case Operate(c, op) => OperateTight(s, c, op, t);
    case Attempt(i) => AttemptTight(s, i, t);
    case GiveUp(i) => DropTight(s, i, t.pool);
    case _ =>
  }

  lemma StepTight(s: System, m: Move, t: System)
    requires Tight(s) && Counting(s.pool) && Counting(t.pool) && Stepped(s, m, t)
    requires m.Call? ==> m.r.size >= OVERHEAD
    ensures Tight(t)
  {
    StepKeeps(s, m, t);
    StepStarves(s, m, t);
    StepHeavy(s, m, t);
  }

  /** On a fair budget smaller than a message every admission of every run overshoots. */
  lemma {:induction false} TightAlways(states: seq<System>, moves: seq<Move>, i: nat)
    requires Steps(states, moves) && Begins(states[0]) && i < |states|
    requires states[0].pool.fair && 0 < states[0].pool.total < OVERHEAD
    requires forall j | 0 <= j < |states| :: Counting(states[j].pool)
    requires forall j | 0 <= j < |moves| :: moves[j].Call? ==> moves[j].r.size >= OVERHEAD
    ensures Tight(states[i])
  {
    if i == 0 {
      FairBegins(states[0]);
    } else {
      TightAlways(states, moves, i - 1);
      StepTight(states[i - 1], moves[i - 1], states[i]);
    }
  }
}
