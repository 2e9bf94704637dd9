/** No lost wakeup: a blocked Add call whose channels are all still open could not be admitted, and
    unless it waits for the count window, an acknowledgement that can free bytes is already requested. */
module Wakeups {
  import opened Words
  import opened Tables
  import opened BudgetSpec
  import opened WindowSpec
  import WL = WindowLaws
  import opened WindowRuns
  import opened WindowTheorems
  import opened Clients
  import opened Overshooting
  import LR = LedgerRuns
  import LT = LedgerTheorems

  // ----- One window -----

  /** Everything an admission decision reads of a window. */
  ghost predicate SameRoom(w: Window, x: Window) {
    && x.running == w.running && x.closed == w.closed && x.accounting == w.accounting
    && x.capacity == w.capacity && |x.slots| == |w.slots|
    && x.maxBytes == w.maxBytes && x.bytes == w.bytes && x.lastFlagged == w.lastFlagged && x.first == w.first
  }

  ghost predicate WokenOrSame(w: Window, x: Window) {
    x.wakes > w.wakes || (x.wakes == w.wakes && SameRoom(w, x))
  }

  lemma HeadWakes(w: Window)
    requires |w.slots| <= MAX_SLOTS
    ensures WokenOrSame(w, ReleaseHead(w))
  {
  }

  lemma {:induction false} SpentWakes(w: Window, j: nat)
    requires j <= |w.tracked|
    ensures WokenOrSame(w, RetireSpent(w, j))
  {
    if j > 0 { SpentWakes(w, j - 1); }
  }

  /** Whatever an operation changes that a blocked producer, or a drain, waits for, it wakes them. */
  lemma OpWakes(w: Window, op: Op)
    requires WL.Inv(w) && Enabled(w, op) && !op.Add?
    ensures WokenOrSame(w, Apply(w, op))
  {
    match op
    case Confirmed(sn, backing) => AckWakes(w, AckCount(w, sn, backing));
    case Deliver => WL.NextExact(w);
    case Restart =>
      var v := w.(deliver := 0);
      SpentWakes(v, |v.tracked|);
      HeadWakes(RetireSpent(v, |v.tracked|));
    case _ =>
  }

  lemma AckWakes(w: Window, k: nat)
    requires k <= |w.slots| <= MAX_SLOTS
    ensures WokenOrSame(w, AckBy(w, k))
  {
  }

  /** An admission wakes nobody, and leaves nobody admissible who was not. */
  lemma AdmitKeepsRefusal(w: Window, r: Request, overshot: bool, q: Pool, size: nat)
    requires WL.Inv(w) && Plain(w)
    ensures var x := Admitted(w, r, overshot, q);
      && x.wakes == w.wakes && x.running == w.running
      && (RefusedLocally(w, size) ==> RefusedLocally(x, size))
      && (HeldFlagged(w) ==> HeldFlagged(x))
  {
  }

  // ----- Blocked calls -----

  /** One of the channels a blocked call waits on is closed. */
  ghost predicate Fired(s: System, a: Adder)
    requires a.client < |s.clients| && a.stage.Blocked?
  {
    || s.clients[a.client].w.wakes != a.stage.wakes
    || (a.waiter.Some? && if s.pool.fair then a.waiter.value < |s.pool.waiters| && s.pool.waiters[a.waiter.value].granted
                          else s.pool.wakes != a.waiter.value)
  }

  /** Why a call blocked is still so, unless its window woke it. */
  ghost predicate Asleep(s: System, a: Adder) {
    && a.client < |s.clients|
    && (a.waiter.Some? && !s.pool.fair ==> a.waiter.value <= s.pool.wakes)
    && (a.stage.Blocked? ==>
      var w := s.clients[a.client].w;
      && a.stage.wakes <= w.wakes
      && (a.stage.wakes == w.wakes ==>
            && w.running
            && (if a.waiter.None? then RefusedLocally(w, a.r.size)
                else HeldFlagged(w) && (!s.pool.fair && s.pool.wakes == a.waiter.value ==> !Fits(s.pool, a.r.size, 0)))))
  }

  ghost predicate Guarded(s: System) {
    && (forall c | 0 <= c < |s.clients| :: FlagHeld(s.clients[c].w))
    && (forall i | 0 <= i < |s.adders| :: Asleep(s, s.adders[i]))
  }

  /** Windows are lawful and their numbers have not wrapped. */
  ghost predicate Lawful(s: System) {
    Orderly(s) && Numbered(s)
  }

  /** The pool of an ungrouped budget lends bytes back only with a broadcast. */
  ghost predicate Broadcasts(p: Pool, q: Pool) {
    && q.fair == p.fair && q.total == p.total
    && (!p.fair ==> q.wakes > p.wakes || (q.wakes == p.wakes && q.used >= p.used))
  }

  /** A call stays asleep when its window did not change, or changed without waking it. */
  lemma StaysAsleep(s: System, t: System, a: Adder)
    requires Asleep(s, a) && a.client < |t.clients| && Broadcasts(s.pool, t.pool)
    requires var w, x := s.clients[a.client].w, t.clients[a.client].w;
      x.wakes > w.wakes || (x.wakes == w.wakes && x.running == w.running
        && (RefusedLocally(w, a.r.size) ==> RefusedLocally(x, a.r.size)) && (HeldFlagged(w) ==> HeldFlagged(x)))
    ensures Asleep(t, a)
  {
  }

  // ----- Every step -----

  lemma OperateGuarded(s: System, c: nat, op: Op, t: System)
    requires Guarded(s) && Lawful(s) && Lawful(t) && Stepped(s, Operate(c, op), t) && Broadcasts(s.pool, t.pool)
    ensures Guarded(t)
  {
    var w := s.clients[c].w;
    assert Tidy(s.clients[c]) && t.clients[c].w == Apply(w, op) && Plain(t.clients[c].w);
    OpWakes(w, op);
    FlagKept(w, op);
    forall i | 0 <= i < |t.adders| ensures Asleep(t, t.adders[i]) {
      assert Asleep(s, s.adders[i]);
      StaysAsleep(s, t, s.adders[i]);
    }
  }

  /** The window of an attempt: as it was, or with one more message. */
  lemma AttemptWindow(s: System, i: nat, t: System, size: nat)
    requires Lawful(s) && Lawful(t) && Stepped(s, Attempt(i), t)
    ensures var w, x := s.clients[s.adders[i].client].w, t.clients[s.adders[i].client].w;
      && x.wakes == w.wakes && x.running == w.running
      && (RefusedLocally(w, size) ==> RefusedLocally(x, size)) && (HeldFlagged(w) ==> HeldFlagged(x))
      && (FlagHeld(w) ==> FlagHeld(x))
  {
    var a, c := s.adders[i], s.clients[s.adders[i].client];
    assert Tidy(c) && Plain(c.w) && Plain(t.clients[a.client].w);
    AttemptGrows(s, i, t);
    if t.adders[i].stage == Gone {
      AdmitKeepsRefusal(c.w, a.r, Overshoots(s, Attempt(i)), t.pool, size);
      if FlagHeld(c.w) { AdmitFlag(c.w, a.r, Overshoots(s, Attempt(i)), t.pool); }
    }
  }

  lemma AdmitFlag(w: Window, r: Request, overshot: bool, q: Pool)
    requires WL.Inv(w) && Plain(w) && Plain(Admitted(w, r, overshot, q)) && FlagHeld(w)
    ensures FlagHeld(Admitted(w, r, overshot, q))
  {
  }

  /** A call that blocks has a reason to. */
  lemma BlockedAsleep(s: System, i: nat, t: System)
    requires Guarded(s) && Stepped(s, Attempt(i), t) && t.adders[i].stage != Gone && Broadcasts(s.pool, t.pool)
    ensures Asleep(t, t.adders[i])
  {
    var a, c := s.adders[i], s.clients[s.adders[i].client];
    assert Asleep(s, a);
    if !RefusedLocally(c.w, a.r.size) {
      var r := Ask(s.pool, a.r.size, !HeldFlagged(c.w), c.group, a.waiter);
      assert !r.ok && r.waiter.Some? && HeldFlagged(c.w);
    }
  }

  lemma AttemptGuarded(s: System, i: nat, t: System)
    requires Guarded(s) && Lawful(s) && Lawful(t) && Stepped(s, Attempt(i), t) && Broadcasts(s.pool, t.pool)
    ensures Guarded(t)
  {
    forall j | 0 <= j < |t.adders| ensures Asleep(t, t.adders[j]) {
      assert Asleep(s, s.adders[j]);
      AttemptWindow(s, i, t, s.adders[j].r.size);
      if j != i {
        StaysAsleep(s, t, s.adders[j]);
      } else if t.adders[i].stage != Gone {
        BlockedAsleep(s, i, t);
      }
    }
    AttemptWindow(s, i, t, 0);
  }

  lemma StepGuarded(s: System, m: Move, t: System)
    requires Guarded(s) && Lawful(s) && Lawful(t) && Stepped(s, m, t) && Broadcasts(s.pool, t.pool)
    ensures Guarded(t)
  {
    match m
    case Operate(c, op) => OperateGuarded(s, c, op, t);
    case Attempt(i) => AttemptGuarded(s, i, t);
    case _ =>
      forall j | 0 <= j < |t.adders| ensures Asleep(t, t.adders[j]) {
        if j < |s.adders| {
          assert Asleep(s, s.adders[j]);
          StaysAsleep(s, t, s.adders[j]);
        }
      }
  }

  // ----- Every run -----

  lemma {:induction false} CreditsKind(p: Pool, picks: seq<nat>)
    ensures Credits(p, picks).fair == p.fair && Credits(p, picks).total == p.total
  {
    if |picks| > 0 { CreditsKind(p, picks[..|picks| - 1]); }
  }

  lemma SettledKind(p: Pool, q: Pool)
    requires Settled(p, q)
    ensures q.fair == p.fair && q.total == p.total
  {
    var picks :| Legal(p, picks) && q == Credits(p, picks) && Quiet(q);
    CreditsKind(p, picks);
  }

  lemma ReleaseBroadcasts(p: Pool, n: nat, escape: nat, g: nat, q: Pool)
    requires Released(p, n, escape, g, q)
    ensures Broadcasts(p, q)
  {
    if n != 0 && p.fair { SettledKind(Release(p, n, escape, g), q); }
  }

  lemma {:induction false} ChainBroadcasts(rs: seq<Refund>, g: nat, pools: seq<Pool>, i: nat)
    requires Chain(rs, g, pools) && i <= |rs|
    ensures Broadcasts(pools[0], pools[i])
  {
    if i > 0 {
      ChainBroadcasts(rs, g, pools, i - 1);
      ReleaseBroadcasts(pools[i - 1], rs[i - 1].bytes, rs[i - 1].escape, g, pools[i]);
    }
  }

  lemma OperateBroadcasts(s: System, c: nat, op: Op, t: System)
    requires Stepped(s, Operate(c, op), t)
    ensures Broadcasts(s.pool, t.pool)
  {
    var w, g := s.clients[c].w, s.clients[c].group;
    var m :| ReleasedAll(s.pool, Refunds(w, op), g, m)
             && t.pool == if op.Shut? && s.pool.fair && !w.closed && g < |m.groups| then Unref(m, g) else m;
    var pools :| Chain(Refunds(w, op), g, pools) && pools[0] == s.pool && pools[|Refunds(w, op)|] == m;
    ChainBroadcasts(Refunds(w, op), g, pools, |Refunds(w, op)|);
  }

  lemma AskBroadcasts(p: Pool, n: nat, force: bool, g: nat, w: Option<nat>, q: Pool, r: Reply)
    requires Reserved(p, n, force, g, w, q, r)
    ensures Broadcasts(p, q)
  {
    if r.schedule { SettledKind(r.pool, q); }
  }

  lemma CancelBroadcasts(p: Pool, w: nat, q: Pool)
    requires Cancelled(p, w, q)
    ensures Broadcasts(p, q)
  {
    if p.fair { SettledKind(RemoveWaiter(p, w), q); }
  }

  lemma StepBroadcasts(s: System, m: Move, t: System)
    requires Stepped(s, m, t)
    ensures Broadcasts(s.pool, t.pool)
  {
    match m
    case Operate(c, op) => OperateBroadcasts(s, c, op, t);
    case Attempt(i) =>
      var a, c := s.adders[i], s.clients[s.adders[i].client];
      if RefusedLocally(c.w, a.r.size) {
        if a.waiter.Some? { CancelBroadcasts(s.pool, a.waiter.value, t.pool); }
      } else {
        var n, force := a.r.size, !HeldFlagged(c.w);
        AskBroadcasts(s.pool, n, force, c.group, a.waiter, t.pool, Ask(s.pool, n, force, c.group, a.waiter));
      }
    case GiveUp(i) => if s.adders[i].waiter.Some? { CancelBroadcasts(s.pool, s.adders[i].waiter.value, t.pool); }
    case _ =>
  }

  lemma {:induction false} GuardedAlways(states: seq<System>, moves: seq<Move>, i: nat)
    requires Steps(states, moves) && Orderly(states[0]) && Guarded(states[0]) && i < |states|
    requires forall j | 0 <= j <= i :: Numbered(states[j])
    ensures Lawful(states[i]) && Guarded(states[i])
  {
    if i > 0 {
      GuardedAlways(states, moves, i - 1);
      StepOrderly(states[i - 1], moves[i - 1], states[i]);
      StepBroadcasts(states[i - 1], moves[i - 1], states[i]);
      StepGuarded(states[i - 1], moves[i - 1], states[i]);
    }
  }

  /** The client waits on bytes only while it holds a live message that asks for an acknowledgement. */
  ghost predicate AckOnItsWay(w: Window) {
    exists i :: Asking(w, i)
  }

  lemma AsleepMeans(s: System, a: Adder)
    requires Asleep(s, a) && a.stage.Blocked? && !Fired(s, a)
    requires FlagHeld(s.clients[a.client].w) && Known(s.pool, s.clients[a.client].group, a.waiter)
    ensures var c := s.clients[a.client];
      && c.w.running && !Admissible(c.w, a.r, s.pool, c.group, a.waiter)
      && (!Available(c.w) || AckOnItsWay(c.w))
  {
    var w := s.clients[a.client].w;
    if HeldFlagged(w) { assert Asking(w, w.lastFlagged - w.first); }
  }

  /** A call's waiter is one the pool knows as its own, on any budget. */
  lemma AlwaysKnown(states: seq<System>, moves: seq<Move>, i: nat, k: nat)
    requires Steps(states, moves) && Begins(states[0]) && i < |states| && k < |states[i].adders|
    requires states[i].adders[k].client < |states[i].clients|
    ensures var s := states[i]; Known(s.pool, s.clients[s.adders[k].client].group, s.adders[k].waiter)
  {
    if states[0].pool.fair {
      LR.FairBegins(states[0]);
      LR.LedgerAlways(states, moves, i);
      LT.CallsKnown(states[i], k);
    } else {
      KindAlways(states, moves, i);
    }
  }

  lemma {:induction false} KindAlways(states: seq<System>, moves: seq<Move>, i: nat)
    requires Steps(states, moves) && i < |states|
    ensures states[i].pool.fair == states[0].pool.fair && states[i].pool.total == states[0].pool.total
  {
    if i > 0 {
      KindAlways(states, moves, i - 1);
      StepBroadcasts(states[i - 1], moves[i - 1], states[i]);
    }
  }

  /** In every state of every run on any budget, a blocked call none of whose channels is closed would be
      refused again; and it waits for the count window or has a live acknowledgement request out. */
  lemma NoLostWakeup(states: seq<System>, moves: seq<Move>, i: nat, k: nat)
    requires Steps(states, moves) && Begins(states[0]) && i < |states|
    requires forall j | 0 <= j <= i :: Numbered(states[j])
    requires k < |states[i].adders| && states[i].adders[k].stage.Blocked?
    ensures var s := states[i]; var a := s.adders[k];
      && a.client < |s.clients|
      && var c := s.clients[a.client];
      && Known(s.pool, c.group, a.waiter)
      && (Fired(s, a)
          || (&& c.w.running && !Admissible(c.w, a.r, s.pool, c.group, a.waiter)
              && (!Available(c.w) || AckOnItsWay(c.w))))
  {
    GuardedAlways(states, moves, i);
    assert Asleep(states[i], states[i].adders[k]);
    AlwaysKnown(states, moves, i, k);
    if !Fired(states[i], states[i].adders[k]) { AsleepMeans(states[i], states[i].adders[k]); }
  }
}
