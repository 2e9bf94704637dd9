/** The structural invariant of a fair pool: queues, waiters, counts and the round-robin list. */
module BudgetShape {
  import opened Words
  import opened Tables
  import opened BudgetSpec

  /** Counts the unfinished waiters of group `g`. */
  ghost function PendingIn(g: nat): Waiter -> nat {
    (w: Waiter) => if w.group == g && !w.done then 1 else 0
  }

  ghost predicate Queued(p: Pool, g: nat, w: nat) {
    w < |p.waiters| && p.waiters[w].group == g && !p.waiters[w].granted && !p.waiters[w].done
    && p.waiters[w].credit < p.waiters[w].n
  }

  ghost predicate GroupShape(p: Pool, g: nat)
    requires g < |p.groups|
  {
    var x := p.groups[g];
    && (x.active <==> x.used != 0 || x.pending != 0)
    && x.pending == Sum(p.waiters, PendingIn(g))
    && Increasing(x.queue)
    && (forall w | w in x.queue :: Queued(p, g, w))
    && (forall i | 1 <= i < |x.queue| :: Queued(p, g, x.queue[i]) && p.waiters[x.queue[i]].credit == 0)
    && (g in p.waiting <==> |x.queue| != 0)
  }

  /** A waiter is queued until granted, and granted only with its full request in hand. */
  ghost predicate WaiterShape(p: Pool, w: nat)
    requires w < |p.waiters|
  {
    var x := p.waiters[w];
    && x.group < |p.groups|
    && x.n > 0
    && (!x.granted && !x.done ==> w in p.groups[x.group].queue)
    && (x.granted && !x.done ==> x.credit == x.n)
  }

  ghost predicate Shape(p: Pool) {
    && p.fair
    && (forall g | 0 <= g < |p.groups| :: GroupShape(p, g))
    && (forall w | 0 <= w < |p.waiters| :: WaiterShape(p, w))
    && Distinct(p.waiting)
    && (forall g | g in p.waiting :: g < |p.groups|)
  }

  /** A waiting group has an unfinished waiter, so it is active. */
  lemma WaitingActive(p: Pool, g: nat)
    requires Shape(p) && g < |p.groups| && |p.groups[g].queue| != 0
    ensures p.groups[g].active && p.groups[g].pending > 0
  {
    var w := p.groups[g].queue[0];
    assert GroupShape(p, g) && w in p.groups[g].queue;
    assert Queued(p, g, w);
    SumAtLeast(p.waiters, w, PendingIn(g));
  }

  /** All waiting groups share the same threshold. */
  lemma SameShare(p: Pool, g: nat)
    requires Shape(p) && g in p.waiting
    ensures g < |p.groups| && Share(p, g) == ShareOf(p.total, p.minGroup, p.active)
  {
    assert GroupShape(p, g);
    WaitingActive(p, g);
  }

  /** Changing only the byte and reference columns of one group keeps the shape. */
  lemma PutShape(p: Pool, g: nat, x: Group, q: Pool)
    requires Shape(p) && g < |p.groups|
    requires x.queue == p.groups[g].queue && x.pending == p.groups[g].pending
    requires q.groups == p.groups[g := x.(active := x.used != 0 || x.pending != 0)]
    requires q.fair && q.waiters == p.waiters && q.waiting == p.waiting
    ensures Shape(q)
  {
    forall k | 0 <= k < |q.groups|
      ensures GroupShape(q, k)
    {
      assert GroupShape(p, k);
      assert forall w :: Queued(p, k, w) ==> Queued(q, k, w);
    }
    forall w | 0 <= w < |q.waiters|
      ensures WaiterShape(q, w)
    {
      assert WaiterShape(p, w);
    }
  }

  lemma ChargeShape(p: Pool, n: nat, g: nat, escape: bool)
    requires Shape(p) && g < |p.groups|
    ensures Shape(Charge(p, n, g, escape))
  {
    var e := if escape then n else 0;
    var x := p.groups[g];
    PutShape(p, g, x.(used := x.used + n, escape := x.escape + e), Charge(p, n, g, escape));
  }

  lemma ReleaseShape(p: Pool, n: nat, escape: nat, g: nat)
    requires Shape(p) && g < |p.groups|
    ensures Shape(Release(p, n, escape, g))
  {
    var x := p.groups[g];
    var c := Min(Min(n, x.used), p.used);
    PutShape(p, g, x.(used := x.used - c, escape := Less(x.escape, escape)), Release(p, n, escape, g));
  }

  lemma RegisterShape(p: Pool, key: string)
    requires Shape(p)
    ensures Shape(Register(p, key).0)
  {
    var q := Register(p, key).0;
    forall k | 0 <= k < |q.groups|
      ensures GroupShape(q, k)
    {
      if k < |p.groups| {
        assert GroupShape(p, k);
        assert forall w :: Queued(p, k, w) ==> Queued(q, k, w);
      } else {
        forall i | 0 <= i < |p.waiters| ensures PendingIn(k)(p.waiters[i]) == 0 {
          assert WaiterShape(p, i);
        }
        SumZero(p.waiters, PendingIn(k));
      }
    }
    forall w | 0 <= w < |q.waiters|
      ensures WaiterShape(q, w)
    {
      assert WaiterShape(p, w);
    }
  }

  lemma UnrefShape(p: Pool, g: nat)
    requires Shape(p) && g < |p.groups|
    ensures Shape(Unref(p, g))
  {
    var x := p.groups[g].(refs := Dec(p.groups[g].refs));
    assert GroupShape(p, g);
    PutShape(p, g, x, Unref(p, g));
  }

  /** What a scheduler turn that credits `c` bytes to `g` touches. */
  ghost predicate Turned(p: Pool, q: Pool, g: nat, c: nat) {
    && g < |p.groups| == |q.groups| && |p.groups[g].queue| > 0 && q.fair
    && var h := p.groups[g].queue[0];
    && h in p.groups[g].queue && Queued(p, g, h)
    && (forall k | 0 <= k < |p.groups| && k != g :: q.groups[k] == p.groups[k])
    && q.groups[g].pending == p.groups[g].pending > 0
    && q.groups[g].active
    && q.groups[g].used == p.groups[g].used + c
    && q.waiters == p.waiters[h := Credited(p.waiters[h], c)]
    && (if q.waiters[h].granted
        then q.groups[g].queue == p.groups[g].queue[1..] && q.waiters[h].credit == q.waiters[h].n
        else q.groups[g].queue == p.groups[g].queue && q.waiters[h].credit < q.waiters[h].n)
    && (forall k :: k in q.waiting <==> k in p.waiting && (k != g || |q.groups[g].queue| != 0))
    && Distinct(q.waiting)
  }

  lemma CreditEffect(p: Pool, g: nat)
    requires Shape(p) && MayPick(p, g)
    ensures Turned(p, Credit(p, g), g, Amount(p, g))
  {
    WithoutMembers(p.waiting, g);
    WithoutOrder(p.waiting, g);
    WaitingActive(p, g);
    var h := p.groups[g].queue[0];
    assert GroupShape(p, g) && h in p.groups[g].queue;
    assert Queued(p, g, h);
  }

  /** The credited queue: its head alone is credited, and leaves when complete. */
  lemma TurnedHead(p: Pool, q: Pool, g: nat, c: nat)
    requires Shape(p) && Turned(p, q, g, c)
    ensures GroupShape(q, g)
  {
    var h := p.groups[g].queue[0];
    assert GroupShape(p, g);
    SumUpdate(p.waiters, h, q.waiters[h], PendingIn(g));
    var xs, ys := p.groups[g].queue, q.groups[g].queue;
    var d := if q.waiters[h].granted then 1 else 0;
    forall i | 0 <= i < |ys|
      ensures Queued(q, g, ys[i]) && (i >= 1 ==> q.waiters[ys[i]].credit == 0)
    {
      assert ys[i] == xs[i + d] && xs[i + d] in xs;
      assert Queued(p, g, xs[i + d]);
      assert i + d >= 1 ==> xs[0] < xs[i + d] && p.waiters[xs[i + d]].credit == 0;
    }
  }

  lemma TurnedShape(p: Pool, q: Pool, g: nat, c: nat)
    requires Shape(p) && Turned(p, q, g, c)
    ensures Shape(q)
  {
    TurnedHead(p, q, g, c);
    var h := p.groups[g].queue[0];
    forall k | 0 <= k < |q.groups|
      ensures GroupShape(q, k)
    {
      assert GroupShape(p, k);
      SumUpdate(p.waiters, h, q.waiters[h], PendingIn(k));
      if k != g {
        assert forall w | Queued(p, k, w) :: Queued(q, k, w);
      }
    }
    forall w | 0 <= w < |q.waiters|
      ensures WaiterShape(q, w)
    {
      assert WaiterShape(p, w);
      if w != h && w in p.groups[g].queue {
        assert w in p.groups[g].queue[1..];
      }
    }
  }

  /** One scheduler turn keeps the shape. */
  lemma CreditShape(p: Pool, g: nat)
    requires Shape(p) && MayPick(p, g)
    ensures Shape(Credit(p, g))
  {
    CreditEffect(p, g);
    TurnedShape(p, Credit(p, g), g, Amount(p, g));
  }

  lemma CreditsShape(p: Pool, picks: seq<nat>)
    requires Shape(p)
    ensures Shape(Credits(p, picks))
  {
    if |picks| > 0 {
      CreditsShape(p, picks[..|picks| - 1]);
      var q := Credits(p, picks[..|picks| - 1]);
      if MayPick(q, picks[|picks| - 1]) {
        CreditShape(q, picks[|picks| - 1]);
      }
    }
  }

  lemma EnqueueEffect(p: Pool, n: nat, g: nat)
    requires g < |p.groups|
    ensures var q := Enqueue(p, n, g);
      && q.groups == p.groups[g := q.groups[g]] && q.groups[g].queue == p.groups[g].queue + [|p.waiters|]
      && q.groups[g].used == p.groups[g].used && q.groups[g].escape == p.groups[g].escape
      && q.groups[g].active && q.groups[g].key == p.groups[g].key
      && q.groups[g].refs == p.groups[g].refs + 1 && q.groups[g].pending == p.groups[g].pending + 1
      && q.waiters == p.waiters + [Waiter(n, 0, g, false, false)]
      && q.active == p.active + (if p.groups[g].active then 0 else 1)
  {
  }

  lemma EnqueueShape(p: Pool, n: nat, g: nat)
    requires Shape(p) && g < |p.groups| && n > 0
    ensures Shape(Enqueue(p, n, g))
  {
    var q, w := Enqueue(p, n, g), |p.waiters|;
    EnqueueEffect(p, n, g);
    forall k | 0 <= k < |q.groups|
      ensures GroupShape(q, k)
    {
      assert GroupShape(p, k);
      SumAppend(p.waiters, q.waiters[w], PendingIn(k));
      var xs := p.groups[k].queue;
      forall i | 0 <= i < |xs|
        ensures Queued(q, k, xs[i]) && xs[i] < w && (i >= 1 ==> q.waiters[xs[i]].credit == 0)
      {
        assert xs[i] in xs;
        assert Queued(p, k, xs[i]);
      }
      assert Queued(q, g, w) && q.waiters[w].credit == 0;
    }
    forall v | 0 <= v < |q.waiters|
      ensures WaiterShape(q, v)
    {
      if v < w {
        assert WaiterShape(p, v);
      } else {
        assert q.groups[g].queue[|p.groups[g].queue|] == w;
      }
    }
  }

  /** Unlinking one waiter leaves a queue in which still only the head holds partial credit. */
  lemma ShorterQueue(p: Pool, g: nat, w: nat, i: nat)
    requires g < |p.groups| && GroupShape(p, g) && i < |Without(p.groups[g].queue, w)|
    ensures var v := Without(p.groups[g].queue, w)[i];
      v != w && Queued(p, g, v) && (i >= 1 ==> p.waiters[v].credit == 0)
  {
    var xs := p.groups[g].queue;
    var ys := Without(xs, w);
    WithoutMembers(xs, w);
    WithoutOrder(xs, w);
    assert ys[i] in ys && ys[0] in ys;
    var j :| 0 <= j < |xs| && xs[j] == ys[i];
    var l :| 0 <= l < |xs| && xs[l] == ys[0];
    if i >= 1 {
      assert ys[0] < ys[i];
      assert j >= 1;
    }
  }

  /** A waiter whose owner lets go of it, granted or not, leaves a well-formed pool. */
  lemma LeaveShape(p: Pool, w: nat, x: Waiter, used: nat, q: Pool)
    requires Shape(p) && w < |p.waiters| && !p.waiters[w].done
    requires x.done && x.group == p.waiters[w].group && x.n == p.waiters[w].n
    requires (
      var g := p.waiters[w].group;
      && g < |p.groups|
      && q.waiters == p.waiters[w := x]
      && q.fair
      && |q.groups| == |p.groups|
      && (forall k | 0 <= k < |p.groups| && k != g :: q.groups[k] == p.groups[k])
      && q.groups[g].used == used
      && q.groups[g].pending == Dec(p.groups[g].pending)
      && (q.groups[g].active <==> used != 0 || q.groups[g].pending != 0)
      && q.groups[g].queue == Without(p.groups[g].queue, w)
      && q.waiting == (if |q.groups[g].queue| == 0 then Without(p.waiting, g) else p.waiting))
    ensures Shape(q)
  {
    var g := p.waiters[w].group;
    assert WaiterShape(p, w) && GroupShape(p, g);
    WithoutMembers(p.waiting, g);
    WithoutOrder(p.waiting, g);
    WithoutMembers(p.groups[g].queue, w);
    WithoutOrder(p.groups[g].queue, w);
    SumAtLeast(p.waiters, w, PendingIn(g));
    forall k | 0 <= k < |q.groups|
      ensures GroupShape(q, k)
    {
      assert GroupShape(p, k);
      SumUpdate(p.waiters, w, x, PendingIn(k));
      var xs := q.groups[k].queue;
      if k == g {
        forall i | 0 <= i < |xs|
          ensures Queued(q, g, xs[i]) && (i >= 1 ==> q.waiters[xs[i]].credit == 0)
        {
          ShorterQueue(p, g, w, i);
        }
        if |xs| != 0 {
          assert xs[0] in xs;
        }
      } else {
        assert forall v | Queued(p, k, v) :: Queued(q, k, v);
      }
    }
    forall v | 0 <= v < |q.waiters|
      ensures WaiterShape(q, v)
    {
      assert WaiterShape(p, v);
    }
  }

  lemma ConsumeShape(p: Pool, w: nat)
    requires Shape(p) && w < |p.waiters| && p.waiters[w].granted && !p.waiters[w].done
    requires p.waiters[w].group < |p.groups|
    ensures Shape(Consume(p, w))
  {
    var g := p.waiters[w].group;
    assert GroupShape(p, g) && WaiterShape(p, w);
    assert forall v | v in p.groups[g].queue :: Queued(p, g, v);
    WithoutMembers(p.groups[g].queue, w);
    WithoutMembers(p.waiting, g);
    LeaveShape(p, w, p.waiters[w].(done := true), p.groups[g].used, Consume(p, w));
  }

  lemma RemoveWaiterShape(p: Pool, w: nat)
    requires Shape(p) && w < |p.waiters| && !p.waiters[w].done && p.waiters[w].group < |p.groups|
    ensures Shape(RemoveWaiter(p, w))
  {
    var g := p.waiters[w].group;
    var q := RemoveWaiter(p, w);
    assert GroupShape(p, g);
    WithoutMembers(p.groups[g].queue, w);
    if |q.groups[g].queue| != 0 {
      assert q.groups[g].queue[0] in q.groups[g].queue;
    }
    LeaveShape(p, w, q.waiters[w], q.groups[g].used, q);
  }
}
