/** What each operation of a fair pool moves: who holds how much, and which waiters remain. */
module BudgetEffects {
  import opened Words
  import opened Tables
  import opened BudgetSpec
  import opened BudgetShape
  import opened BudgetLaws
  import opened BudgetTheorems

  /** Bytes of group `g` that are not credits of its waiters: the bytes its clients hold. */
  ghost function Held(p: Pool, g: nat): int
    requires g < |p.groups|
  {
    p.groups[g].used - Credit0(p, g)
  }

  /** References of `g` that are not its waiters': its registered clients. */
  ghost function Members(p: Pool, g: nat): int
    requires g < |p.groups|
  {
    p.groups[g].refs - p.groups[g].pending
  }

  /** Group `k` has `bytes` more held, `escape` more escaped, and as many members. */
  ghost predicate Gains(p: Pool, q: Pool, k: nat, bytes: int, escape: int)
    requires k < |p.groups| && k < |q.groups|
  {
    && Held(q, k) == Held(p, k) + bytes
    && q.groups[k].escape == p.groups[k].escape + escape
    && Members(q, k) == Members(p, k)
  }

  /** The same of group `g` alone, and nothing of another group `k`. */
  ghost predicate GainsIn(p: Pool, q: Pool, k: nat, g: nat, bytes: int, escape: int)
    requires k < |p.groups| && k < |q.groups|
  {
    if k == g then Gains(p, q, k, bytes, escape) else Gains(p, q, k, 0, 0)
  }

  ghost predicate SameConfig(p: Pool, q: Pool) {
    q.total == p.total && q.fair == p.fair && q.reserve == p.reserve && q.minGroup == p.minGroup
  }

  /** Waiter `w` is still the same request of the same group, and a closed wake stays closed. */
  ghost predicate SameWaiter(p: Pool, q: Pool, w: nat)
    requires w < |p.waiters| && w < |q.waiters|
  {
    && q.waiters[w].n == p.waiters[w].n && q.waiters[w].group == p.waiters[w].group
    && q.waiters[w].done == p.waiters[w].done
    && (p.waiters[w].granted ==> q.waiters[w].granted)
  }

  /** `q` differs from `p` at most by credits among waiters. */
  ghost predicate Recredited(p: Pool, q: Pool) {
    && SameConfig(p, q)
    && |q.groups| == |p.groups| && |q.waiters| == |p.waiters|
    && (forall k | 0 <= k < |p.groups| :: Gains(p, q, k, 0, 0))
    && (forall w | 0 <= w < |p.waiters| :: SameWaiter(p, q, w))
  }

  lemma TurnEffect(p: Pool, g: nat)
    requires Inv(p) && MayPick(p, g)
    ensures Recredited(p, Credit(p, g))
  {
    TurnKeepsInv(p, g);
    CreditEffect(p, g);
    var q := Credit(p, g);
    forall k | 0 <= k < |p.groups| ensures Gains(p, q, k, 0, 0) {
      assert k != g ==> q.groups[k] == p.groups[k];
    }
  }

  lemma RecreditedTrans(p: Pool, q: Pool, r: Pool)
    requires Recredited(p, q) && Recredited(q, r)
    ensures Recredited(p, r)
  {
    forall k | 0 <= k < |p.groups| ensures Gains(p, r, k, 0, 0) {
      assert Gains(p, q, k, 0, 0) && Gains(q, r, k, 0, 0);
    }
    forall w | 0 <= w < |p.waiters| ensures SameWaiter(p, r, w) {
      assert SameWaiter(p, q, w) && SameWaiter(q, r, w);
    }
  }

  lemma {:induction false} CreditsEffect(p: Pool, picks: seq<nat>)
    requires Inv(p) && Legal(p, picks)
    ensures Recredited(p, Credits(p, picks))
  {
    if |picks| > 0 {
      var init := picks[..|picks| - 1];
      CreditsEffect(p, init);
      CreditsKeepInv(p, init);
      TurnEffect(Credits(p, init), picks[|picks| - 1]);
      RecreditedTrans(p, Credits(p, init), Credits(p, picks));
    }
  }

  /** The scheduler moves no bytes between holders. */
  lemma SettledEffect(p: Pool, q: Pool)
    requires Inv(p) && Settled(p, q)
    ensures Recredited(p, q)
  {
    var picks :| Legal(p, picks) && q == Credits(p, picks) && Quiet(q);
    CreditsEffect(p, picks);
  }

  /** `q` is `p` with `bytes` and `escape` more in group `g`, waiter `gone` finished and perhaps one
      new waiter, up to credits among waiters. */
  ghost predicate Moved(p: Pool, q: Pool, g: nat, bytes: int, escape: int, gone: Option<nat>) {
    && SameConfig(p, q)
    && |q.groups| == |p.groups| && |p.waiters| <= |q.waiters|
    && (forall k | 0 <= k < |p.groups| :: GainsIn(p, q, k, g, bytes, escape))
    && (forall w | 0 <= w < |p.waiters| && gone != Some(w) :: SameWaiter(p, q, w))
    && (gone.Some? && gone.value < |p.waiters| ==> q.waiters[gone.value].done)
  }

  lemma MovedThenRecredited(p: Pool, q: Pool, r: Pool, g: nat, bytes: int, escape: int, gone: Option<nat>)
    requires Moved(p, q, g, bytes, escape, gone) && Recredited(q, r)
    ensures Moved(p, r, g, bytes, escape, gone)
  {
    forall k | 0 <= k < |p.groups| ensures GainsIn(p, r, k, g, bytes, escape) {
      assert GainsIn(p, q, k, g, bytes, escape) && Gains(q, r, k, 0, 0);
    }
    forall w | 0 <= w < |p.waiters| && gone != Some(w) ensures SameWaiter(p, r, w) {
      assert SameWaiter(p, q, w) && SameWaiter(q, r, w);
    }
    if gone.Some? && gone.value < |p.waiters| { assert SameWaiter(q, r, gone.value); }
  }

  lemma PayEffect(p: Pool, n: nat, g: nat, escape: bool)
    requires Inv(p) && g < |p.groups|
    ensures Moved(p, Charge(p, n, g, escape), g, n, if escape then n else 0, None)
  {
    var q, e := Charge(p, n, g, escape), if escape then n else 0;
    forall k | 0 <= k < |p.groups| ensures GainsIn(p, q, k, g, n, e) {
      assert k != g ==> q.groups[k] == p.groups[k];
    }
  }

  lemma RefundEffect(p: Pool, n: nat, back: nat, g: nat, bytes: int, escape: int)
    requires Inv(p) && Due(p, Refund(n, back, g)) && bytes == 0 - n && escape == 0 - back
    ensures Moved(p, Release(p, n, back, g), g, bytes, escape, None)
    ensures |Release(p, n, back, g).waiters| == |p.waiters|
  {
    RefundKeepsInv(p, n, back, g);
    var q := Release(p, n, back, g);
    forall k | 0 <= k < |p.groups| ensures GainsIn(p, q, k, g, bytes, escape) {
      assert k != g ==> q.groups[k] == p.groups[k];
    }
  }

  lemma ArriveEffect(p: Pool, n: nat, g: nat)
    requires Inv(p) && Due(p, Arrive(n, g))
    ensures Moved(p, Enqueue(p, n, g), g, 0, 0, None)
    ensures Enqueue(p, n, g).waiters == p.waiters + [Waiter(n, 0, g, false, false)]
  {
    var q := Enqueue(p, n, g);
    ArriveKeepsInv(p, n, g);
    EnqueueEffect(p, n, g);
    ArrivedMoves(p, n, g, q);
  }

  lemma ArrivedMoves(p: Pool, n: nat, g: nat, q: Pool)
    requires g < |p.groups| == |q.groups| && SameConfig(p, q) && q.waiters == p.waiters + [Waiter(n, 0, g, false, false)]
    requires q.groups == p.groups[g := q.groups[g]]
    requires q.groups[g].used == p.groups[g].used && q.groups[g].escape == p.groups[g].escape
    requires q.groups[g].refs == p.groups[g].refs + 1 && q.groups[g].pending == p.groups[g].pending + 1
    requires forall k | 0 <= k < |p.groups| :: Credit0(q, k) == Credit0(p, k)
    ensures Moved(p, q, g, 0, 0, None)
  {
    forall k | 0 <= k < |p.groups| ensures GainsIn(p, q, k, g, 0, 0) {
      assert k != g ==> q.groups[k] == p.groups[k];
    }
  }

  lemma LeaveEffect(p: Pool, w: nat)
    requires Inv(p) && Due(p, Leave(w))
    ensures Moved(p, RemoveWaiter(p, w), p.waiters[w].group, 0, 0, Some(w))
    ensures |RemoveWaiter(p, w).waiters| == |p.waiters|
  {
    var q, g := RemoveWaiter(p, w), p.waiters[w].group;
    forall k | 0 <= k < |p.groups| ensures GainsIn(p, q, k, g, 0, 0) {
      LeaveGains(p, w, k);
    }
  }

  lemma LeaveGains(p: Pool, w: nat, k: nat)
    requires Inv(p) && Due(p, Leave(w)) && k < |p.groups|
    ensures |RemoveWaiter(p, w).groups| == |p.groups| && Gains(p, RemoveWaiter(p, w), k, 0, 0)
  {
    var q := RemoveWaiter(p, w);
    LeftGroup(p, w);
    SumUpdate(p.waiters, w, q.waiters[w], CreditIn(k));
  }

  lemma TakeEffect(p: Pool, w: nat)
    requires Inv(p) && Due(p, Take(w))
    ensures Moved(p, Consume(p, w), p.waiters[w].group, p.waiters[w].n, 0, Some(w))
    ensures |Consume(p, w).waiters| == |p.waiters|
  {
    var q, g := Consume(p, w), p.waiters[w].group;
    WaiterWithin(p, w);
    assert Backed(p, g) && WaiterShape(p, w);
    forall k | 0 <= k < |p.groups| ensures GainsIn(p, q, k, g, p.waiters[w].n, 0) {
      SumUpdate(p.waiters, w, q.waiters[w], CreditIn(k));
      assert k != g ==> q.groups[k] == p.groups[k];
    }
  }

  /** Registration refuses exactly the empty name, and otherwise leads to the one group of that name, known or
      new, with one more holder and no other change. */
  lemma RegisterEffect(p: Pool, key: string)
    requires Inv(p)
    ensures var (q, g) := Register(p, key);
      && (g.None? <==> key == "") && (g.None? ==> q == p)
      && (g.Some? ==>
            && g.value < |q.groups| && key in q.names && q.names[key] == g.value && q.groups[g.value].key == key
            && (if key in p.names then g.value == p.names[key] && |q.groups| == |p.groups|
                                       && q.groups[g.value] == p.groups[g.value].(refs := p.groups[g.value].refs + 1)
                else g.value == |p.groups| && |q.groups| == |p.groups| + 1
                     && q.groups[g.value] == Group(key, 1, 0, 0, 0, false, []))
            && (forall k | 0 <= k < |p.groups| && k != g.value :: q.groups[k] == p.groups[k])
            && q == p.(groups := q.groups, names := q.names))
  {
  }

  /** A group that gains no more escape than room beyond its escapes keeps them inside. */
  lemma MovedInside(p: Pool, q: Pool, g: nat, bytes: int, escape: int, gone: Option<nat>)
    requires EscapesInside(p) && Moved(p, q, g, bytes, escape, gone)
    requires g < |p.groups| ==> p.groups[g].escape + escape <= Held(p, g) + bytes
    ensures EscapesInside(q)
  {
    forall k | 0 <= k < |q.groups| ensures q.groups[k].escape + Credit0(q, k) <= q.groups[k].used {
      assert GainsIn(p, q, k, g, bytes, escape);
    }
  }

  /** As long as an escape comes back with its bytes, every event keeps escapes inside what groups hold. */
  lemma EventKeepsInside(p: Pool, e: Event)
    requires Inv(p) && EscapesInside(p) && Due(p, e)
    requires e.Refund? ==> e.n - e.back <= Held(p, e.g) - p.groups[e.g].escape
    ensures EscapesInside(Play(p, e))
  {
    match e
    case Turn(g) => TurnEffect(p, g); RecreditedInside(p, Credit(p, g));
    case Arrive(n, g) => ArriveEffect(p, n, g); MovedInside(p, Enqueue(p, n, g), g, 0, 0, None);
    case Leave(w) => LeaveEffect(p, w); MovedInside(p, RemoveWaiter(p, w), p.waiters[w].group, 0, 0, Some(w));
    case Take(w) =>
      TakeEffect(p, w);
      MovedInside(p, Consume(p, w), p.waiters[w].group, p.waiters[w].n, 0, Some(w));
    case Pay(n, g, escape) =>
      PayEffect(p, n, g, escape);
      MovedInside(p, Charge(p, n, g, escape), g, n, if escape then n else 0, None);
    case Refund(n, back, g) =>
      var bytes, escape := 0 - n, 0 - back;
      RefundEffect(p, n, back, g, bytes, escape);
      MovedInside(p, Release(p, n, back, g), g, bytes, escape, None);
    case Join(key) => JoinInside(p, key);
    case Part(g) =>
  }

  lemma RecreditedInside(p: Pool, q: Pool)
    requires EscapesInside(p) && Recredited(p, q)
    ensures EscapesInside(q)
  {
    forall k | 0 <= k < |q.groups| ensures q.groups[k].escape + Credit0(q, k) <= q.groups[k].used {
      assert Gains(p, q, k, 0, 0);
    }
  }

  lemma JoinInside(p: Pool, key: string)
    requires Inv(p) && EscapesInside(p) && key != ""
    ensures EscapesInside(Register(p, key).0)
  {
    JoinKeepsInv(p, key);
    RegisterEffect(p, key);
    JoinedInside(p, Register(p, key).0);
  }

  lemma JoinedInside(p: Pool, q: Pool)
    requires EscapesInside(p) && Inv(q) && q.waiters == p.waiters && |p.groups| <= |q.groups|
    requires forall k | 0 <= k < |p.groups| :: q.groups[k].escape == p.groups[k].escape && q.groups[k].used == p.groups[k].used
    requires forall k | |p.groups| <= k < |q.groups| :: q.groups[k].escape == 0
    ensures EscapesInside(q)
  {
    forall k | 0 <= k < |q.groups| ensures q.groups[k].escape + Credit0(q, k) <= q.groups[k].used {
      if k >= |p.groups| { assert Backed(q, k); }
    }
  }

  /** Two moves in the same group add up. */
  lemma MovedTwice(p: Pool, q: Pool, r: Pool, g: nat, gone: Option<nat>, bytes: int, escape: int)
    requires Moved(p, q, g, 0, 0, gone) && Moved(q, r, g, bytes, escape, None)
    ensures Moved(p, r, g, bytes, escape, gone)
  {
    forall k | 0 <= k < |p.groups| ensures GainsIn(p, r, k, g, bytes, escape) {
      assert GainsIn(p, q, k, g, 0, 0) && GainsIn(q, r, k, g, bytes, escape);
    }
    forall w | 0 <= w < |p.waiters| && gone != Some(w) ensures SameWaiter(p, r, w) {
      assert SameWaiter(p, q, w) && SameWaiter(q, r, w);
    }
    if gone.Some? && gone.value < |p.waiters| { assert SameWaiter(q, r, gone.value); }
  }

  lemma NothingMoved(p: Pool, g: nat)
    ensures Moved(p, p, g, 0, 0, None)
  {
    forall k | 0 <= k < |p.groups| ensures GainsIn(p, p, k, g, 0, 0) { }
  }

  /** The waiter of its own that a reservation finishes. */
  function Finished(r: Reply, w: Option<nat>): Option<nat> {
    if r.ok then w else None
  }

  lemma AskFreshEffect(p: Pool, n: nat, force: bool, g: nat)
    requires Inv(p) && n > 0 && Known(p, g, None) && g < |p.groups| && p.groups[g].pending < p.groups[g].refs
    ensures var r := Ask(p, n, force, g, None);
      && Moved(p, r.pool, g, if r.ok then n else 0, if r.overshot then n else 0, None)
      && (r.ok ==> r.pool.waiters == p.waiters)
      && (!r.ok ==> r.waiter == Some(|p.waiters|) && r.pool.waiters == p.waiters + [Waiter(n, 0, g, false, false)])
  {
    var r := Ask(p, n, force, g, None);
    if r.ok {
      PayEffect(p, n, g, r.overshot);
    } else {
      ArriveEffect(p, n, g);
    }
  }

  /** What the decision of a reservation moves: the request's bytes exactly if it is admitted, as an
      escape exactly if it overshoots. A refused request leaves one waiter, its own. */
  lemma AskEffect(p: Pool, n: nat, force: bool, g: nat, w: Option<nat>)
    requires Inv(p) && n > 0 && Known(p, g, w) && g < |p.groups| && p.groups[g].pending < p.groups[g].refs
    requires w.Some? ==> p.waiters[w.value].n == n
    ensures var r := Ask(p, n, force, g, w);
      && Moved(p, r.pool, g, if r.ok then n else 0, if r.overshot then n else 0, Finished(r, w))
      && (r.ok || w.Some? ==> |r.pool.waiters| == |p.waiters|)
      && (!r.ok && w.Some? ==> r.pool == p && r.waiter == w)
      && (!r.ok && w.None? ==>
            r.waiter == Some(|p.waiters|) && r.pool.waiters == p.waiters + [Waiter(n, 0, g, false, false)])
  {
    if w.None? {
      AskFreshEffect(p, n, force, g);
    } else if p.waiters[w.value].granted {
      TakeEffect(p, w.value);
    } else if force {
      var q := RemoveWaiter(p, w.value);
      LeaveEffect(p, w.value);
      LeaveKeepsInv(p, w.value);
      LeaveRefs(p, w.value);
      AskFreshEffect(q, n, true, g);
      var r := Ask(q, n, true, g, None);
      MovedTwice(p, q, r.pool, g, w, n, if r.overshot then n else 0);
    } else {
      NothingMoved(p, g);
    }
  }

  /** The whole reservation, scheduler included. */
  lemma ReservedEffect(p: Pool, n: nat, force: bool, g: nat, w: Option<nat>, q: Pool, r: Reply)
    requires Inv(p) && Quiet(p) && n > 0 && Reserved(p, n, force, g, w, q, r)
    requires g < |p.groups| && p.groups[g].pending < p.groups[g].refs
    requires w.Some? ==> p.waiters[w.value].n == n
    ensures Moved(p, q, g, if r.ok then n else 0, if r.overshot then n else 0, Finished(r, w))
    ensures r.ok || w.Some? ==> |q.waiters| == |p.waiters|
    ensures !r.ok && w.Some? ==> q == p && r.waiter == w
    ensures !r.ok && w.None? ==> r.waiter == Some(|p.waiters|) && |q.waiters| == |p.waiters| + 1
                                 && q.waiters[|p.waiters|].n == n && q.waiters[|p.waiters|].group == g
                                 && !q.waiters[|p.waiters|].done
  {
    AskEffect(p, n, force, g, w);
    if r.schedule {
      AskKeeps(p, n, force, g, w);
      SettledEffect(r.pool, q);
      MovedThenRecredited(p, r.pool, q, g, if r.ok then n else 0, if r.overshot then n else 0, Finished(r, w));
      if !r.ok && w.None? { assert SameWaiter(r.pool, q, |p.waiters|); }
    }
  }

  lemma CancelledEffect(p: Pool, w: nat, q: Pool)
    requires Inv(p) && Due(p, Leave(w)) && Cancelled(p, w, q)
    ensures Moved(p, q, p.waiters[w].group, 0, 0, Some(w)) && |q.waiters| == |p.waiters|
  {
    LeaveEffect(p, w);
    LeaveKeepsInv(p, w);
    SettledEffect(RemoveWaiter(p, w), q);
    MovedThenRecredited(p, RemoveWaiter(p, w), q, p.waiters[w].group, 0, 0, Some(w));
  }

  lemma ReturnedEffect(p: Pool, n: nat, back: nat, g: nat, q: Pool, bytes: int, escape: int)
    requires Inv(p) && Due(p, Refund(n, back, g)) && Settled(Release(p, n, back, g), q)
    requires bytes == 0 - n && escape == 0 - back
    ensures Moved(p, q, g, bytes, escape, None) && |q.waiters| == |p.waiters|
  {
    var r := Release(p, n, back, g);
    RefundEffect(p, n, back, g, bytes, escape);
    RefundKeepsInv(p, n, back, g);
    SettledEffect(r, q);
    MovedThenRecredited(p, r, q, g, bytes, escape, None);
  }

  /** Returning bytes takes exactly them from what the group's clients hold. */
  lemma ReleasedEffect(p: Pool, n: nat, back: nat, g: nat, q: Pool, bytes: int, escape: int)
    requires Inv(p) && Due(p, Refund(n, back, g)) && Released(p, n, back, g, q)
    requires bytes == 0 - n && escape == 0 - back
    ensures Moved(p, q, g, bytes, escape, None) && |q.waiters| == |p.waiters|
  {
    if n == 0 {
      NothingMoved(p, g);
    } else {
      ReturnedEffect(p, n, back, g, q, bytes, escape);
    }
  }
}
