/** What every operation on a fair pool keeps: its books, its cap, FIFO inside a group, and that no
    usable room stays idle. The operations are broken into the events they consist of. */
module BudgetLaws {
  import opened Words
  import opened Tables
  import opened BudgetSpec
  import opened BudgetShape

  ghost function UsedOf(): Group -> nat { (x: Group) => x.used }
  ghost function EscapeOf(): Group -> nat { (x: Group) => x.escape }
  ghost function ActiveBit(): Group -> nat { (x: Group) => if x.active then 1 else 0 }

  /** Bytes already credited to the unfinished waiters of `g`. */
  ghost function CreditIn(g: nat): Waiter -> nat {
    (w: Waiter) => if w.group == g && !w.done then w.credit else 0
  }

  ghost function Credit0(p: Pool, g: nat): nat {
    Sum(p.waiters, CreditIn(g))
  }

  /** The pool's totals are the totals of its groups. */
  ghost predicate Books(p: Pool) {
    && p.used == Sum(p.groups, UsedOf())
    && p.escape == Sum(p.groups, EscapeOf())
    && p.active == Sum(p.groups, ActiveBit())
  }

  /** A group holds at least its waiters' credits, and a reference per waiter. */
  ghost predicate Backed(p: Pool, g: nat)
    requires g < |p.groups|
  {
    Credit0(p, g) <= p.groups[g].used && p.groups[g].pending <= p.groups[g].refs
  }

  /** Beyond its waiters' credits a group holds at least its escapes, so nothing wraps in `Net`. */
  ghost predicate EscapesInside(p: Pool) {
    forall g | 0 <= g < |p.groups| :: p.groups[g].escape + Credit0(p, g) <= p.groups[g].used
  }

  /** A name leads to its one live group, and a group without references has no name. */
  ghost predicate Named(p: Pool) {
    && (forall g | 0 <= g < |p.groups| ::
          p.groups[g].refs != 0 <==> p.groups[g].key in p.names && p.names[p.groups[g].key] == g)
    && (forall k | k in p.names :: p.names[k] < |p.groups| && p.groups[p.names[k]].key == k)
  }

  ghost predicate Config(p: Pool) {
    p.total <= MAX64 && if p.total == 0 then p.reserve == 0 else p.reserve < p.total
  }

  /** The soft cap: what is not an escape stays within a nonzero total. */
  ghost predicate Capped(p: Pool) {
    p.total != 0 ==> p.used <= p.total + p.escape
  }

  /** Nobody is granted past an older waiter of the same group. */
  ghost predicate Fifo(p: Pool) {
    forall v, w | 0 <= v < w < |p.waiters| && p.waiters[v].group == p.waiters[w].group && p.waiters[w].granted
                  && p.waiters[v].group < |p.groups| :: v !in p.groups[p.waiters[v].group].queue
  }

  ghost predicate Inv(p: Pool) {
    && Shape(p)
    && Books(p)
    && (forall g | 0 <= g < |p.groups| :: Backed(p, g))
    && Named(p)
    && Config(p)
    && Capped(p)
    && Fifo(p)
  }

  lemma EscapeWithinUsed(p: Pool)
    requires Books(p) && EscapesInside(p)
    ensures p.escape <= p.used && Net(p) == p.used - p.escape
  {
    SumMonotone(p.groups, EscapeOf(), UsedOf());
  }

  /** What fits beside the bytes under the cap keeps the soft cap, also where used minus escape wraps. */
  lemma FitsUnderCap(p: Pool, n: nat)
    requires p.total != 0 && Config(p) && Net(p) + n <= p.total
    ensures p.used + n <= p.total + p.escape
    ensures Less(p.used + n, p.escape) == Net(p) + n
  {
  }

  // ----- Events -----

  /** The atomic changes of a pool. A public operation is a sequence of them. */
  datatype Event =
    | Turn(g: nat)
    | Arrive(n: nat, g: nat)
    | Leave(w: nat)
    | Take(w: nat)
    | Pay(n: nat, g: nat, escape: bool)
    | Refund(n: nat, back: nat, g: nat)
    | Join(key: string)
    | Part(g: nat)

  /** What the caller of each event owes the pool. */
  ghost predicate Due(p: Pool, e: Event) {
    match e
    case Turn(g) => MayPick(p, g)
    case Arrive(n, g) => g < |p.groups| && n > 0 && p.groups[g].refs > 0
    case Leave(w) => w < |p.waiters| && !p.waiters[w].done && p.waiters[w].group < |p.groups|
    case Take(w) => w < |p.waiters| && !p.waiters[w].done && p.waiters[w].granted && p.waiters[w].group < |p.groups|
    case Pay(n, g, escape) =>
      g < |p.groups| && p.groups[g].refs > 0 && (!escape && p.total != 0 ==> Net(p) + n <= p.total)
    case Refund(n, back, g) =>
      g < |p.groups| && p.groups[g].refs > 0 && back <= n && back <= p.groups[g].escape
      && n + Credit0(p, g) <= p.groups[g].used
    case Join(key) => key != ""
    case Part(g) => g < |p.groups| && p.groups[g].pending < p.groups[g].refs
  }

  function Play(p: Pool, e: Event): Pool {
    match e
    case Turn(g) => if MayPick(p, g) then Credit(p, g) else p
    case Arrive(n, g) => if g < |p.groups| then Enqueue(p, n, g) else p
    case Leave(w) => if w < |p.waiters| && p.waiters[w].group < |p.groups| then RemoveWaiter(p, w) else p
    case Take(w) => if w < |p.waiters| && p.waiters[w].group < |p.groups| then Consume(p, w) else p
    case Pay(n, g, escape) => if g < |p.groups| then Charge(p, n, g, escape) else p
    case Refund(n, back, g) => if g < |p.groups| then Release(p, n, back, g) else p
    case Join(key) => Register(p, key).0
    case Part(g) => if g < |p.groups| then Unref(p, g) else p
  }

  /** Replacing one group moves each total by that group's difference. */
  lemma TotalsMove(p: Pool, q: Pool, g: nat)
    requires Books(p) && g < |p.groups| == |q.groups| && q.groups == p.groups[g := q.groups[g]]
    requires q.used + p.groups[g].used == p.used + q.groups[g].used
    requires q.escape + p.groups[g].escape == p.escape + q.groups[g].escape
    requires q.active + (if p.groups[g].active then 1 else 0) == p.active + (if q.groups[g].active then 1 else 0)
    ensures Books(q)
  {
    SumUpdate(p.groups, g, q.groups[g], UsedOf());
    SumUpdate(p.groups, g, q.groups[g], EscapeOf());
    SumUpdate(p.groups, g, q.groups[g], ActiveBit());
  }

  /** The bounds that keep subtractions on group `g` from wrapping. */
  lemma GroupWithin(p: Pool, g: nat)
    requires Books(p) && g < |p.groups|
    ensures p.groups[g].used <= p.used && p.groups[g].escape <= p.escape
    ensures p.groups[g].active ==> p.active > 0
  {
    SumAtLeast(p.groups, g, UsedOf());
    SumAtLeast(p.groups, g, EscapeOf());
    SumAtLeast(p.groups, g, ActiveBit());
  }

  lemma WaiterWithin(p: Pool, w: nat)
    requires Shape(p) && w < |p.waiters| && !p.waiters[w].done
    ensures p.waiters[w].group < |p.groups|
    ensures p.waiters[w].credit <= Credit0(p, p.waiters[w].group)
    ensures p.groups[p.waiters[w].group].pending > 0
  {
    var g := p.waiters[w].group;
    assert WaiterShape(p, w);
    assert GroupShape(p, g);
    SumAtLeast(p.waiters, w, CreditIn(g));
    SumAtLeast(p.waiters, w, PendingIn(g));
  }

  /** An event that changes group `g` and waiters of `g` alone keeps the invariant when it keeps the
      parts about `g`. */
  lemma ChangeKeepsInv(p: Pool, q: Pool, g: nat)
    requires Inv(p) && g < |p.groups| && Shape(q) && Config(q) && q.total == p.total
    requires |q.groups| == |p.groups| && q.groups == p.groups[g := q.groups[g]]
    requires q.used + p.groups[g].used == p.used + q.groups[g].used
    requires q.escape + p.groups[g].escape == p.escape + q.groups[g].escape
    requires q.active + (if p.groups[g].active then 1 else 0) == p.active + (if q.groups[g].active then 1 else 0)
    requires Backed(q, g) && forall k | 0 <= k < |p.groups| && k != g :: Credit0(q, k) == Credit0(p, k)
    requires q.groups[g].key == p.groups[g].key && p.groups[g].refs > 0
    requires q.names == if q.groups[g].refs == 0 then p.names - {p.groups[g].key} else p.names
    requires Capped(q) && Fifo(q)
    ensures Inv(q)
  {
    TotalsMove(p, q, g);
    forall k | 0 <= k < |q.groups| ensures Backed(q, k) {
      if k != g { assert Backed(p, k); }
    }
    forall k | 0 <= k < |q.groups|
      ensures q.groups[k].refs != 0 <==> q.groups[k].key in q.names && q.names[q.groups[k].key] == k
    {
      assert p.groups[k].refs != 0 <==> p.groups[k].key in p.names && p.names[p.groups[k].key] == k;
    }
  }

  lemma TurnedFifo(p: Pool, q: Pool, g: nat, c: nat)
    requires Inv(p) && Turned(p, q, g, c)
    ensures Fifo(q)
  {
    var h := p.groups[g].queue[0];
    assert GroupShape(p, g);
    forall v, w | 0 <= v < w < |q.waiters| && q.waiters[v].group == q.waiters[w].group && q.waiters[w].granted
                  && q.waiters[v].group < |q.groups|
      ensures v !in q.groups[q.waiters[v].group].queue
    {
      if w == h {
        assert forall i | 0 <= i < |p.groups[g].queue| :: p.groups[g].queue[i] >= h;
      } else {
        assert v !in p.groups[p.waiters[v].group].queue;
      }
    }
  }

  lemma TurnedCredits(p: Pool, q: Pool, g: nat, c: nat, k: nat)
    requires Turned(p, q, g, c)
    ensures Credit0(q, k) == Credit0(p, k) + if k == g then c else 0
  {
    var h := p.groups[g].queue[0];
    SumUpdate(p.waiters, h, q.waiters[h], CreditIn(k));
  }

  lemma TurnKeepsInv(p: Pool, g: nat)
    requires Inv(p) && MayPick(p, g)
    ensures Inv(Credit(p, g))
    ensures forall k | 0 <= k < |p.groups| ::
              Credit0(Credit(p, g), k) == Credit0(p, k) + if k == g then Amount(p, g) else 0
  {
    var q := Credit(p, g);
    CreditShape(p, g);
    CreditEffect(p, g);
    TurnedFifo(p, q, g, Amount(p, g));
    forall k | 0 <= k < |p.groups|
      ensures Credit0(q, k) == Credit0(p, k) + if k == g then Amount(p, g) else 0
    {
      TurnedCredits(p, q, g, Amount(p, g), k);
    }
    WaitingActive(p, g);
    if p.total != 0 { FitsUnderCap(p, Amount(p, g)); }
    assert Backed(p, g) && GroupShape(p, g);
    ChangeKeepsInv(p, q, g);
  }

  lemma ArriveFifo(p: Pool, n: nat, g: nat)
    requires Inv(p) && g < |p.groups|
    ensures Fifo(Enqueue(p, n, g))
  {
    var q := Enqueue(p, n, g);
    EnqueueEffect(p, n, g);
    forall v, w | 0 <= v < w < |q.waiters| && q.waiters[v].group == q.waiters[w].group && q.waiters[w].granted
                  && q.waiters[v].group < |q.groups|
      ensures v !in q.groups[q.waiters[v].group].queue
    {
      assert v !in p.groups[p.waiters[v].group].queue;
    }
  }

  lemma ArriveKeepsInv(p: Pool, n: nat, g: nat)
    requires Inv(p) && Due(p, Arrive(n, g))
    ensures Inv(Enqueue(p, n, g))
    ensures forall k | 0 <= k < |p.groups| :: Credit0(Enqueue(p, n, g), k) == Credit0(p, k)
  {
    var q := Enqueue(p, n, g);
    EnqueueShape(p, n, g);
    EnqueueEffect(p, n, g);
    ArriveFifo(p, n, g);
    forall k | 0 <= k < |p.groups|
      ensures Credit0(q, k) == Credit0(p, k)
    {
      SumAppend(p.waiters, q.waiters[|p.waiters|], CreditIn(k));
    }
    assert Backed(p, g) && GroupShape(p, g);
    ChangeKeepsInv(p, q, g);
  }

  /** A waiter finishes: the part of its credit that goes back to the pool is `back`. */
  lemma FinishKeepsInv(p: Pool, w: nat, q: Pool, back: nat)
    requires Inv(p) && w < |p.waiters| && !p.waiters[w].done && p.waiters[w].group < |p.groups|
    requires Shape(q) && Config(q) && q.total == p.total && back <= p.waiters[w].credit
    requires |q.waiters| == |p.waiters| && q.waiters[w].done && q.waiters[w].group == p.waiters[w].group
    requires q.waiters == p.waiters[w := q.waiters[w]] && q.waiters[w].granted == p.waiters[w].granted
    requires var g := p.waiters[w].group;
      && |q.groups| == |p.groups| && q.groups == p.groups[g := q.groups[g]]
      && q.used + back == p.used && q.escape == p.escape
      && q.groups[g].key == p.groups[g].key && q.groups[g].escape == p.groups[g].escape
      && q.groups[g].used + back == p.groups[g].used
      && q.groups[g].pending + 1 == p.groups[g].pending && q.groups[g].refs + 1 == p.groups[g].refs
      && (forall v | v in q.groups[g].queue :: v in p.groups[g].queue)
      && q.active + (if p.groups[g].active then 1 else 0) == p.active + (if q.groups[g].active then 1 else 0)
      && q.names == if q.groups[g].refs == 0 then p.names - {p.groups[g].key} else p.names
    ensures Inv(q)
    ensures Credit0(q, p.waiters[w].group) + p.waiters[w].credit == Credit0(p, p.waiters[w].group)
  {
    var g := p.waiters[w].group;
    WaiterWithin(p, w);
    assert Backed(p, g) && GroupShape(p, g);
    forall k | 0 <= k < |p.groups|
      ensures Credit0(q, k) + (if k == g then p.waiters[w].credit else 0) == Credit0(p, k)
    {
      SumUpdate(p.waiters, w, q.waiters[w], CreditIn(k));
    }
    forall u, v | 0 <= u < v < |q.waiters| && q.waiters[u].group == q.waiters[v].group && q.waiters[v].granted
                  && q.waiters[u].group < |q.groups|
      ensures u !in q.groups[q.waiters[u].group].queue
    {
      assert u !in p.groups[p.waiters[u].group].queue;
    }
    ChangeKeepsInv(p, q, g);
  }

  /** What a departure changes of its group and of the pool: no clamp bites and no count wraps. */
  lemma LeftGroup(p: Pool, w: nat)
    requires Inv(p) && Due(p, Leave(w))
    ensures var g, q := p.waiters[w].group, RemoveWaiter(p, w);
      && |q.groups| == |p.groups| && q.groups == p.groups[g := q.groups[g]]
      && q.waiters == p.waiters[w := p.waiters[w].(credit := 0, done := true)]
      && q.used + p.waiters[w].credit == p.used && q.groups[g].used + p.waiters[w].credit == p.groups[g].used
      && q.groups[g].pending + 1 == p.groups[g].pending && q.groups[g].refs + 1 == p.groups[g].refs
      && (forall v | v in q.groups[g].queue :: v in p.groups[g].queue)
      && q.active + (if p.groups[g].active then 1 else 0) == p.active + (if q.groups[g].active then 1 else 0)
  {
    var g := p.waiters[w].group;
    WaiterWithin(p, w);
    GroupWithin(p, g);
    assert Backed(p, g) && GroupShape(p, g);
    WithoutMembers(p.groups[g].queue, w);
  }

  lemma LeaveKeepsInv(p: Pool, w: nat)
    requires Inv(p) && Due(p, Leave(w))
    ensures Inv(RemoveWaiter(p, w))
    ensures Credit0(RemoveWaiter(p, w), p.waiters[w].group) + p.waiters[w].credit == Credit0(p, p.waiters[w].group)
  {
    var g := p.waiters[w].group;
    RemoveWaiterShape(p, w);
    LeftGroup(p, w);
    FinishKeepsInv(p, w, RemoveWaiter(p, w), p.waiters[w].credit);
  }

  lemma TakeKeepsInv(p: Pool, w: nat)
    requires Inv(p) && Due(p, Take(w))
    ensures Inv(Consume(p, w))
    ensures Credit0(Consume(p, w), p.waiters[w].group) + p.waiters[w].n == Credit0(p, p.waiters[w].group)
  {
    var g := p.waiters[w].group;
    ConsumeShape(p, w);
    WaiterWithin(p, w);
    GroupWithin(p, g);
    assert Backed(p, g) && GroupShape(p, g) && WaiterShape(p, w);
    FinishKeepsInv(p, w, Consume(p, w), 0);
  }

  lemma PayKeepsInv(p: Pool, n: nat, g: nat, escape: bool)
    requires Inv(p) && Due(p, Pay(n, g, escape))
    ensures Inv(Charge(p, n, g, escape))
  {
    var q := Charge(p, n, g, escape);
    ChargeShape(p, n, g, escape);
    assert Backed(p, g) && GroupShape(p, g);
    if p.total != 0 && !escape { FitsUnderCap(p, n); }
    SameQueues(p, q);
    ChangeKeepsInv(p, q, g);
  }

  /** A refund within what is owed is exact: no clamp of the release bites. */
  lemma RefundKeepsInv(p: Pool, n: nat, back: nat, g: nat)
    requires Inv(p) && Due(p, Refund(n, back, g))
    ensures Inv(Release(p, n, back, g))
    ensures Release(p, n, back, g).groups[g].used == p.groups[g].used - n
    ensures Release(p, n, back, g).groups[g].escape == p.groups[g].escape - back
  {
    var q := Release(p, n, back, g);
    ReleaseShape(p, n, back, g);
    GroupWithin(p, g);
    assert Backed(p, g) && GroupShape(p, g);
    SameQueues(p, q);
    ChangeKeepsInv(p, q, g);
  }

  lemma NewGroupKeepsInv(p: Pool, key: string)
    requires Inv(p) && key != "" && key !in p.names
    ensures Inv(Register(p, key).0)
  {
    var q, g := Register(p, key).0, |p.groups|;
    RegisterShape(p, key);
    SumAppend(p.groups, q.groups[g], UsedOf());
    SumAppend(p.groups, q.groups[g], EscapeOf());
    SumAppend(p.groups, q.groups[g], ActiveBit());
    forall i | 0 <= i < |p.waiters| ensures CreditIn(g)(p.waiters[i]) == 0 && p.waiters[i].group < g {
      assert WaiterShape(p, i);
    }
    SumZero(p.waiters, CreditIn(g));
    forall k | 0 <= k < |q.groups| ensures Backed(q, k) {
      if k < g { assert Backed(p, k); }
    }
  }

  /** An event that leaves all queues and waiters alone cannot disturb the order of grants. */
  lemma SameQueues(p: Pool, q: Pool)
    requires Fifo(p) && q.waiters == p.waiters && |q.groups| == |p.groups|
    requires forall k | 0 <= k < |p.groups| :: q.groups[k].queue == p.groups[k].queue
    ensures Fifo(q)
    ensures forall k :: Credit0(q, k) == Credit0(p, k)
  {
  }

  lemma JoinKeepsInv(p: Pool, key: string)
    requires Inv(p) && key != ""
    ensures Inv(Register(p, key).0)
  {
    if key in p.names {
      var q, g := Register(p, key).0, p.names[key];
      RegisterShape(p, key);
      assert Backed(p, g) && GroupShape(p, g);
      SameQueues(p, q);
      ChangeKeepsInv(p, q, g);
    } else {
      NewGroupKeepsInv(p, key);
    }
  }

  lemma PartKeepsInv(p: Pool, g: nat)
    requires Inv(p) && Due(p, Part(g))
    ensures Inv(Unref(p, g))
  {
    var q := Unref(p, g);
    UnrefShape(p, g);
    assert Backed(p, g) && GroupShape(p, g);
    SameQueues(p, q);
    ChangeKeepsInv(p, q, g);
  }

  /** Every event keeps the whole invariant. */
  lemma EventKeepsInv(p: Pool, e: Event)
    requires Inv(p) && Due(p, e)
    ensures Inv(Play(p, e))
  {
    match e
    case Turn(g) => TurnKeepsInv(p, g);
    case Arrive(n, g) => ArriveKeepsInv(p, n, g);
    case Leave(w) => LeaveKeepsInv(p, w);
    case Take(w) => TakeKeepsInv(p, w);
    case Pay(n, g, escape) => PayKeepsInv(p, n, g, escape);
    case Refund(n, back, g) => RefundKeepsInv(p, n, back, g);
    case Join(key) => JoinKeepsInv(p, key);
    case Part(g) => PartKeepsInv(p, g);
  }
}
