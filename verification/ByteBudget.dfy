/** The shared byte budget: the pool of `BudgetSpec` with the index that lets its scheduler find an
    eligible group without scanning all waiting ones. */
module ByteBudgets {
  import opened Words
  import opened Tables
  import opened BudgetSpec
  import opened BudgetShape
  import opened BudgetTheorems
  import BR = BudgetRuns
  import RO = ReserveOrder
  import opened GroupHeaps

  /** The need of every group that has a waiter, and of no other. */
  function NeedMap(groups: seq<Group>, waiters: seq<Waiter>): map<nat, nat> {
    map g | 0 <= g < |groups| && |groups[g].queue| != 0 :: NeedOf(groups, waiters, g)
  }

  /** A heap stays ordered, up to the group whose need changed. */
  lemma OneNeedChanged(items: seq<nat>, was: map<nat, nat>, now: map<nat, nat>, g: nat)
    requires Ordered(items, was)
    requires forall k | k != g :: (k in was <==> k in now) && (k in was ==> now[k] == was[k])
    ensures Ordered(items, now[g := if g in was then was[g] else 0])
  {
    var then' := now[g := if g in was then was[g] else 0];
    forall i | 0 <= i < |items|
      ensures items[i] in then' && then'[items[i]] == was[items[i]]
    {
      assert items[i] in was;
    }
    forall i {:trigger Parent(i)} | 1 <= i < |items|
      ensures then'[items[Parent(i)]] <= then'[items[i]]
    {
      assert was[items[Parent(i)]] <= was[items[i]];
    }
  }

  lemma AbsentNeed(items: seq<nat>, needs: map<nat, nat>, g: nat, was: nat)
    requires Ordered(items, needs[g := was]) && g !in items
    ensures Ordered(items, needs)
  {
    forall i | 0 <= i < |items|
      ensures items[i] in needs && needs[g := was][items[i]] == needs[items[i]]
    {
      assert items[i] in needs[g := was];
    }
    forall i {:trigger Parent(i)} | 1 <= i < |items|
      ensures needs[items[Parent(i)]] <= needs[items[i]]
    {
      assert needs[g := was][items[Parent(i)]] <= needs[g := was][items[i]];
    }
  }

  class ByteBudget {
    const total: nat
    const fair: bool
    const reserve: nat
    const minGroup: nat
    var used: nat
    var escape: nat
    var active: nat
    var names: map<string, nat>
    var groups: seq<Group>
    var waiters: seq<Waiter>
    var waiting: seq<nat>
    var reserveReady: seq<nat>
    const blocked: GroupHeap
    var legacyWakes: nat

    ghost function View(): Pool
      reads this
    {
      Pool(total, fair, reserve, minGroup, used, escape, active, names, groups, waiters, waiting, legacyWakes)
    }

    /** The pool with the order of its ready list. */
    ghost function AtDesk(): RO.Desk
      reads this
    {
      RO.Desk(View(), reserveReady)
    }

    function Needs(): map<nat, nat>
      reads this
    {
      NeedMap(groups, waiters)
    }

    /** The lists agree: a listed group is in exactly one of the ready list and the heap. */
    ghost predicate Listed()
      reads this, blocked
    {
      && blocked.Valid()
      && Distinct(reserveReady)
      && (forall g | g in reserveReady :: g !in blocked.index)
      && (forall g :: g in waiting <==> g in reserveReady || g in blocked.index)
    }

    /** The index of a fair budget, next to the well-formed pool it indexes. */
    ghost predicate Valid()
      reads this, blocked
    {
      fair ==> Shape(View()) && Listed() && Ordered(blocked.items, Needs())
    }

    constructor (total: nat, fair: bool, reserve: nat, minGroup: nat)
      ensures Valid() && fresh(blocked)
      ensures View() == Empty(total, fair, reserve, minGroup)
    {
      this.total, this.fair, this.reserve, this.minGroup := total, fair, reserve, minGroup;
      used, escape, active, legacyWakes := 0, 0, 0, 0;
      names, groups, waiters, waiting, reserveReady := map[], [], [], [], [];
      blocked := new GroupHeap();
    }

    function GroupShare(g: nat): nat
      requires g < |groups|
      reads this
    {
      ShareOf(total, minGroup, if groups[g].active then active else active + 1)
    }

    /** Asked only of a group that has a waiter. */
    function GroupNeed(g: nat): nat
      requires g < |groups| && |groups[g].queue| != 0
      reads this
    {
      NeedOf(groups, waiters, g)
    }

    method ActivateLocked(g: nat)
      requires g < |groups|
      modifies this`active, this`groups
      ensures View() == Put(old(View()), g, old(groups)[g])
    {
      var now := groups[g].used != 0 || groups[g].pending != 0;
      if now != groups[g].active {
        active := if now then active + 1 else Dec(active);
        groups := groups[g := groups[g].(active := now)];
      }
    }

    method ChargeLocked(n: nat, g: nat, isEscape: bool)
      requires g < |groups|
      modifies this`used, this`escape, this`active, this`groups
      ensures View() == Charge(old(View()), n, g, isEscape)
    {
      var x := groups[g].(used := groups[g].used + n);
      used := used + n;
      if isEscape {
        x := x.(escape := x.escape + n);
        escape := escape + n;
      }
      groups := groups[g := x];
      ActivateLocked(g);
    }

    method ReleaseLocked(n: nat, back: nat, g: nat)
      requires g < |groups|
      modifies this`used, this`escape, this`active, this`groups
      ensures View() == Release(old(View()), n, back, g)
    {
      var c := n;
      if c > groups[g].used { c := groups[g].used; }
      if c > used { c := used; }
      var x := groups[g];
      groups := groups[g := x.(used := x.used - c, escape := Less(x.escape, back))];
      used := used - c;
      escape := Less(escape, back);
      ActivateLocked(g);
    }

    method UnregisterLocked(g: nat)
      requires g < |groups|
      modifies this`groups, this`names
      ensures View() == Unref(old(View()), g)
    {
      groups := groups[g := groups[g].(refs := Dec(groups[g].refs))];
      if groups[g].refs == 0 {
        names := names - {groups[g].key};
      }
    }

    /** Brings the lists and the index up to date after the queue or the need of `g` changed. */
    method RefreshLocked(g: nat, ghost was: nat) returns (ready: bool)
      requires g < |groups|
      requires Listed() && Ordered(blocked.items, Needs()[g := was])
      modifies this`waiting, this`reserveReady, blocked
      ensures View() == Relist(old(View()), g)
      ensures Listed() && Ordered(blocked.items, Needs())
      ensures ready <==> |groups[g].queue| != 0 && NeedOf(groups, waiters, g)
                         <= ShareOf(total, minGroup, if groups[g].active then active else active + 1)
      ensures reserveReady == if !ready then Without(old(reserveReady), g)
                              else if g in old(reserveReady) then old(reserveReady)
                              else old(reserveReady) + [g]
      ensures blocked.index.Keys == if ready || |groups[g].queue| == 0 then old(blocked.index.Keys) - {g}
                                    else old(blocked.index.Keys) + {g}
    {
      if |groups[g].queue| == 0 {
        DelistLocked(g, was);
        return false;
      }
      ready := EnlistLocked(g, was);
    }

    /** The same, as the order of the ready list sees it. */
    method RelistLocked(g: nat, ghost was: nat)
      requires g < |groups|
      requires Listed() && Ordered(blocked.items, Needs()[g := was])
      modifies this`waiting, this`reserveReady, blocked
      ensures View() == Relist(old(View()), g) && reserveReady == RO.Rank(View(), old(reserveReady), g)
      ensures Listed() && Ordered(blocked.items, Needs())
    {
      ghost var p, before := View(), reserveReady;
      var ready := RefreshLocked(g, was);
      RankIs(p, before, g, ready, reserveReady);
    }

    /** A group without waiters leaves the lists and the index. */
    method DelistLocked(g: nat, ghost was: nat)
      requires g < |groups| && |groups[g].queue| == 0
      requires Listed() && Ordered(blocked.items, Needs()[g := was])
      modifies this`waiting, this`reserveReady, blocked
      ensures waiting == Without(old(waiting), g) && reserveReady == Without(old(reserveReady), g)
      ensures Listed() && Ordered(blocked.items, Needs()) && blocked.index.Keys == old(blocked.index.Keys) - {g}
    {
      WithoutMembers(waiting, g);
      WithoutMembers(reserveReady, g);
      WithoutOrder(reserveReady, g);
      waiting := Without(waiting, g);
      reserveReady := Without(reserveReady, g);
      DropFromHeap(g, was);
    }

    /** A group with waiters is on the round-robin list, and on the ready list exactly within its share. */
    method EnlistLocked(g: nat, ghost was: nat) returns (ready: bool)
      requires g < |groups| && |groups[g].queue| != 0
      requires Listed() && Ordered(blocked.items, Needs()[g := was])
      modifies this`waiting, this`reserveReady, blocked
      ensures waiting == if g in old(waiting) then old(waiting) else old(waiting) + [g]
      ensures Listed() && Ordered(blocked.items, Needs())
      ensures ready <==> NeedOf(groups, waiters, g)
                         <= ShareOf(total, minGroup, if groups[g].active then active else active + 1)
      ensures reserveReady == if !ready then Without(old(reserveReady), g)
                              else if g in old(reserveReady) then old(reserveReady)
                              else old(reserveReady) + [g]
      ensures blocked.index.Keys == if ready then old(blocked.index.Keys) - {g} else old(blocked.index.Keys) + {g}
    {
      WithoutMembers(reserveReady, g);
      WithoutOrder(reserveReady, g);
      if g !in waiting {
        waiting := waiting + [g];
      }
      ready := NeedOf(groups, waiters, g) <= ShareOf(total, minGroup, if groups[g].active then active else active + 1);
      if ready {
        DropFromHeap(g, was);
        if g !in reserveReady {
          reserveReady := reserveReady + [g];
        }
      } else {
        reserveReady := Without(reserveReady, g);
        PlaceInHeap(g, was);
      }
    }

    method PlaceInHeap(g: nat, ghost was: nat)
      requires blocked.Valid() && g in Needs() && Ordered(blocked.items, Needs()[g := was])
      modifies blocked
      ensures blocked.Valid() && Ordered(blocked.items, Needs()) && blocked.index.Keys == old(blocked.index.Keys) + {g}
    {
      if g in blocked.index {
        blocked.Fix(blocked.index[g], Needs(), was);
      } else {
        assert g !in blocked.items;
        AbsentNeed(blocked.items, Needs(), g, was);
        blocked.Push(g, Needs());
      }
    }

    method DropFromHeap(g: nat, ghost was: nat)
      requires blocked.Valid() && Ordered(blocked.items, Needs()[g := was])
      modifies blocked
      ensures blocked.Valid() && Ordered(blocked.items, Needs()) && blocked.index.Keys == old(blocked.index.Keys) - {g}
    {
      if g in blocked.index {
        blocked.Remove(blocked.index[g], Needs(), was);
      } else {
        assert g !in blocked.items;
        AbsentNeed(blocked.items, Needs(), g, was);
      }
    }

    /** All that the index walks rely on: every listed group has a waiter, and so is active. */
    ghost predicate Live()
      reads this
    {
      forall k | k in waiting :: k < |groups| && groups[k].active && |groups[k].queue| != 0
    }

    /** The share every waiting group is measured against. */
    function Threshold(): nat
      reads this
    {
      ShareOf(total, minGroup, active)
    }

    /** The first group of the ready list within its share, or none exactly if no waiting group is. Waiting
        groups that came within their share have joined the list, and those in front that outgrew it have
        left it. */
    method NextReserveLocked() returns (g: Option<nat>, ghost k: RO.Pick)
      requires fair && Valid()
      modifies this`waiting, this`reserveReady, blocked
      ensures Valid() && View() == old(View())
      ensures g.Some? ==> g.value in waiting && g.value < |groups| && Need(View(), g.value) <= Share(View(), g.value)
      ensures g.None? <==> forall k | k in waiting && k < |groups| :: Need(View(), k) > Share(View(), k)
      ensures RO.Elects(old(AtDesk()), k.added, k.dropped)
      ensures reserveReady == (old(reserveReady) + k.added)[k.dropped..]
      ensures if g.Some? then |reserveReady| > 0 && g.value == reserveReady[0] == k.g else reserveReady == []
    {
      ghost var p, ready := View(), reserveReady;
      ghost var added, dropped;
      WaitingLive();
      g, added, dropped := ElectLocked();
      k := RO.Pick(if g.Some? then g.value else 0, added, dropped);
      Elected(p, ready, added, dropped, Threshold());
      assert View() == p;
    }

    /** The election in the terms of the index. */
    method ElectLocked() returns (g: Option<nat>, ghost added: seq<nat>, ghost dropped: nat)
      requires Listed() && Live() && Ordered(blocked.items, Needs())
      modifies this`waiting, this`reserveReady, blocked
      ensures waiting == old(waiting) && Listed() && Ordered(blocked.items, Needs())
      ensures g.Some? ==> g.value in waiting && g.value < |groups| && NeedOf(groups, waiters, g.value) <= Threshold()
      ensures g.None? ==> forall k | k in waiting :: Beyond(k)
      ensures var all := old(reserveReady) + added;
        && Distinct(all) && dropped <= |all| && reserveReady == all[dropped..]
        && Climbing(added, Needs()) && (forall k | k in added :: k in waiting && Needs()[k] <= Threshold())
        && (forall k | k in waiting && k !in all :: Beyond(k))
        && (forall i | 0 <= i < dropped :: all[i] in waiting && Beyond(all[i]))
      ensures if g.Some? then |reserveReady| > 0 && g.value == reserveReady[0] else reserveReady == []
    {
      added := PromoteLocked();
      assert forall k | k in added :: k in reserveReady;
      assert forall i | 0 <= i < |reserveReady| :: reserveReady[i] in reserveReady;
      g, dropped := FirstReadyLocked();
    }

    lemma WaitingLive()
      requires fair && Valid()
      ensures Live() && forall k | k in waiting :: Share(View(), k) == Threshold()
    {
      forall k | k in waiting
        ensures k < |groups| && groups[k].active && |groups[k].queue| != 0
      {
        assert GroupShape(View(), k);
        WaitingActive(View(), k);
      }
    }

    /** Heap heads that came within their share move to the ready list, the least need first. */
    method PromoteLocked() returns (ghost added: seq<nat>)
      requires Listed() && Live() && Ordered(blocked.items, Needs())
      modifies this`reserveReady, blocked
      ensures Listed() && Ordered(blocked.items, Needs())
      ensures forall k | k in blocked.index :: Beyond(k)
      ensures reserveReady == old(reserveReady) + added && Climbing(added, Needs())
      ensures forall k | k in added :: k in Needs() && Needs()[k] <= Threshold()
    {
      added := [];
      while |blocked.items| != 0
        invariant Listed() && Ordered(blocked.items, Needs())
        invariant reserveReady == old(reserveReady) + added && Climbing(added, Needs())
        invariant forall k | k in added :: k in Needs() && Needs()[k] <= Threshold()
        invariant |added| > 0 && |blocked.items| > 0 ==> Needs()[added[|added| - 1]] <= Needs()[blocked.items[0]]
        decreases |blocked.items|
      {
        var k := blocked.items[0];
        assert k in blocked.index;
        if GroupNeed(k) > GroupShare(k) {
          BlockedBeyond(blocked.items, Needs(), Threshold());
          return;
        }
        added := Promote(added);
      }
    }

    /** The root of the heap goes to the back of the ready list. */
    method Promote(ghost added: seq<nat>) returns (ghost more: seq<nat>)
      requires Listed() && Ordered(blocked.items, Needs()) && |blocked.items| > 0 && Climbing(added, Needs())
      requires |added| > 0 ==> Needs()[added[|added| - 1]] <= Needs()[blocked.items[0]]
      modifies this`reserveReady, blocked
      ensures Listed() && Ordered(blocked.items, Needs()) && |blocked.items| == |old(blocked.items)| - 1
      ensures var k := old(blocked.items)[0];
        && k in Needs() && more == added + [k] && reserveReady == old(reserveReady) + [k] && Climbing(more, Needs())
        && (|blocked.items| > 0 ==> blocked.items[0] in Needs() && Needs()[k] <= Needs()[blocked.items[0]])
    {
      ghost var was := blocked.items;
      var k := blocked.Pop(Needs());
      reserveReady := reserveReady + [k];
      more := added + [k];
      if |blocked.items| > 0 { RootBelow(was, blocked.items[0], Needs()); }
    }

    /** Ready groups that no longer are within their share go back to the heap. */
    method FirstReadyLocked() returns (g: Option<nat>, ghost dropped: nat)
      requires Listed() && Live() && Ordered(blocked.items, Needs())
      requires forall k | k in blocked.index :: Beyond(k)
      modifies this`waiting, this`reserveReady, blocked
      ensures waiting == old(waiting) && Listed() && Ordered(blocked.items, Needs())
      ensures g.Some? ==> g.value in waiting && g.value < |groups| && NeedOf(groups, waiters, g.value) <= Threshold()
      ensures g.None? ==> forall k | k in waiting :: Beyond(k)
      ensures dropped <= |old(reserveReady)| && reserveReady == old(reserveReady)[dropped..]
      ensures forall i | 0 <= i < dropped :: Beyond(old(reserveReady)[i])
      ensures if g.Some? then |reserveReady| > 0 && g.value == reserveReady[0] else reserveReady == []
    {
      dropped := 0;
      while |reserveReady| != 0
        invariant waiting == old(waiting) && Listed() && Ordered(blocked.items, Needs())
        invariant forall k | k in blocked.index :: Beyond(k)
        invariant dropped <= |old(reserveReady)| && reserveReady == old(reserveReady)[dropped..]
        invariant forall i | 0 <= i < dropped :: Beyond(old(reserveReady)[i])
        decreases |reserveReady|
      {
        var k := reserveReady[0];
        assert k in reserveReady;
        if GroupNeed(k) <= GroupShare(k) {
          return Some(k), dropped;
        }
        DropFirst();
        dropped := dropped + 1;
      }
      g := None;
    }

    /** A group whose need exceeds the share. */
    ghost predicate Beyond(k: nat)
      reads this
    {
      k < |groups| && NeedOf(groups, waiters, k) > Threshold()
    }

    /** The first ready group has outgrown its share. */
    method DropFirst()
      requires Listed() && Live() && Ordered(blocked.items, Needs()) && |reserveReady| > 0 && reserveReady[0] in waiting
      requires Beyond(reserveReady[0])
      modifies this`waiting, this`reserveReady, blocked
      ensures waiting == old(waiting) && Listed() && Ordered(blocked.items, Needs())
      ensures reserveReady == old(reserveReady)[1..] && blocked.index.Keys == old(blocked.index.Keys) + {old(reserveReady)[0]}
    {
      var k := reserveReady[0];
      NeedsUnchanged(k);
      WithoutFirst(reserveReady);
      var _ := RefreshLocked(k, Needs()[k]);
    }

    /** What the next turn may give to `g`. */
    method CreditFor(g: nat) returns (credit: nat)
      requires MayPick(View(), g)
      ensures credit == Amount(View(), g)
    {
      var w := waiters[groups[g].queue[0]];
      var net := Less(used, escape);
      var room := if total == 0 then MAX64 else if net + reserve < total then total - reserve - net else 0;
      if total != 0 && GroupNeed(g) <= GroupShare(g) {
        room := total - net;
      }
      credit := w.n - w.credit;
      if credit > QUANTUM { credit := QUANTUM; }
      if credit > room { credit := room; }
    }

    method BookLocked(g: nat, credit: nat)
      requires g < |groups| && |groups[g].queue| > 0 && groups[g].queue[0] < |waiters|
      modifies this`used, this`escape, this`active, this`groups, this`waiters
      ensures View() == Book(old(View()), g, credit)
    {
      var h := groups[g].queue[0];
      ChargeLocked(credit, g, false);
      waiters := waiters[h := waiters[h].(credit := waiters[h].credit + credit)];
      if waiters[h].credit == waiters[h].n {
        groups := groups[g := groups[g].(queue := groups[g].queue[1..])];
        waiters := waiters[h := waiters[h].(granted := true)];
      }
    }

    /** One turn: charge the credit, grant a complete request, and send the group to the back. */
    method CreditLocked(g: nat)
      requires fair && Valid() && MayPick(View(), g)
      modifies this, blocked
      ensures Valid() && View() == Credit(old(View()), g)
      ensures reserveReady == RO.Back(View(), old(reserveReady), g)
    {
      ghost var p := View();
      CreditShape(p, g);
      CreditEffect(p, g);
      var credit := CreditFor(g);
      BookLocked(g, credit);
      ghost var was := NeedsMove(p, Credit(p, g), g, blocked.items);
      RotateLocked(g, was);
    }

    /** Brings the index up to date and moves `g` to the back of the lists it is still on. */
    method RotateLocked(g: nat, ghost was: nat)
      requires g < |groups| && g in waiting && Listed() && Ordered(blocked.items, Needs()[g := was])
      modifies this`waiting, this`reserveReady, blocked
      ensures Listed() && Ordered(blocked.items, Needs())
      ensures waiting == if |groups[g].queue| == 0 then Without(old(waiting), g) else Without(old(waiting), g) + [g]
      ensures reserveReady == RO.Back(View(), old(reserveReady), g)
    {
      WithoutMembers(waiting, g);
      ghost var before := reserveReady;
      RelistLocked(g, was);
      RO.BackOf(View(), before, g);
      ghost var p := View();
      ToBackLocked(g);
      SameWithin(p, View(), g);
    }

    method ToBackLocked(g: nat)
      requires Listed()
      modifies this`waiting, this`reserveReady
      ensures Listed()
      ensures waiting == if g in old(waiting) then Without(old(waiting), g) + [g] else old(waiting)
      ensures reserveReady == if g in old(reserveReady) then Without(old(reserveReady), g) + [g] else old(reserveReady)
    {
      WithoutMembers(waiting, g);
      WithoutMembers(reserveReady, g);
      WithoutOrder(reserveReady, g);
      if g in waiting {
        waiting := Without(waiting, g) + [g];
      }
      if g in reserveReady {
        reserveReady := Without(reserveReady, g) + [g];
      }
    }

    /** Whose turn it is, or none exactly if no usable room is left or nobody waits. */
    method PickLocked() returns (g: Option<nat>, ghost k: RO.Pick)
      requires fair && Valid()
      modifies this`waiting, this`reserveReady, blocked
      ensures Valid() && View() == old(View())
      ensures if g.Some? then MayPick(View(), g.value) else Quiet(View())
      ensures if g.Some? then k.g == g.value && RO.Proper(old(AtDesk()), k) && reserveReady == RO.Standing(old(AtDesk()), k)
              else RO.Rests(old(AtDesk()), AtDesk())
    {
      k := RO.Pick(0, [], 0);
      var net := Less(used, escape);
      if |waiting| == 0 || (total != 0 && net >= total) {
        return None, k;
      }
      var base := if total == 0 then MAX64 else if net + reserve < total then total - reserve - net else 0;
      if base != 0 {
        g := Some(waiting[0]);
        k := RO.Pick(waiting[0], [], 0);
      } else {
        g, k := NextReserveLocked();
        if g.None? {
          return;
        }
      }
      Pickable(View(), g.value);
    }

    /** Gives turns until no usable room is left or nobody waits: to the first in line, and inside the
        reserve to the first group of the ready list that is within its share. */
    method ScheduleLocked() returns (ghost ks: seq<RO.Pick>)
      requires fair && Valid()
      modifies this, blocked
      ensures Valid() && RO.Scheduled(old(AtDesk()), ks, AtDesk()) && Settled(old(View()), View())
    {
      ks := [];
      ghost var start, d := AtDesk(), AtDesk();
      var g;
      ghost var k;
      g, k := PickLocked();
      while g.Some?
        invariant Valid() && RO.AllProper(start, ks) && d == RO.Serves(start, ks) && View() == d.pool
        invariant if g.Some? then k.g == g.value && RO.Proper(d, k) && reserveReady == RO.Standing(d, k)
                  else RO.Rests(d, AtDesk())
        decreases Outstanding(View()), g.Some?
      {
        TurnProgress(View(), g.value);
        OneMorePick(start, ks, k);
        ks := ks + [k];
        CreditLocked(g.value);
        d := AtDesk();
        g, k := PickLocked();
      }
      RO.ScheduledSettles(start, ks, AtDesk());
    }

    /** A waiter lets go of its place, its credit and its hold on the group. */
    method DepartLocked(w: nat)
      requires w < |waiters| && waiters[w].group < |groups| && groups[waiters[w].group].pending > 0
      requires groups[waiters[w].group].active
      modifies this`used, this`escape, this`active, this`groups, this`waiters, this`names
      ensures View() == Depart(old(View()), w)
    {
      var g := waiters[w].group;
      groups := groups[g := groups[g].(queue := Without(groups[g].queue, w))];
      if waiters[w].credit != 0 {
        ReleaseLocked(waiters[w].credit, 0, g);
      }
      waiters := waiters[w := waiters[w].(credit := 0, done := true)];
      groups := groups[g := groups[g].(pending := Dec(groups[g].pending))];
      ActivateLocked(g);
      UnregisterLocked(g);
    }

    method RemoveWaiterLocked(w: nat)
      requires fair && Valid() && w < |waiters| && waiters[w].group < |groups| && !waiters[w].done
      modifies this, blocked
      ensures Valid() && View() == RemoveWaiter(old(View()), w)
      ensures reserveReady == RO.Rank(View(), old(reserveReady), old(waiters)[w].group)
    {
      ghost var p, g := View(), waiters[w].group;
      RemoveWaiterShape(p, w);
      PendingActive(p, w);
      DepartLocked(w);
      ghost var was := NeedsMove(p, Depart(p, w), g, blocked.items);
      RelistLocked(waiters[w].group, was);
    }

    method LineLocked(n: nat, g: nat)
      requires g < |groups|
      modifies this`active, this`groups, this`waiters
      ensures View() == Line(old(View()), n, g)
    {
      var x := groups[g];
      groups := groups[g := x.(queue := x.queue + [|waiters|], pending := x.pending + 1, refs := x.refs + 1)];
      waiters := waiters + [Waiter(n, 0, g, false, false)];
      ActivateLocked(g);
    }

    method EnqueueLocked(n: nat, g: nat)
      requires fair && Valid() && g < |groups| && n > 0
      modifies this, blocked
      ensures Valid() && View() == Enqueue(old(View()), n, g)
      ensures reserveReady == RO.Rank(View(), old(reserveReady), g)
    {
      ghost var p := View();
      EnqueueShape(p, n, g);
      LineLocked(n, g);
      ghost var was := NeedsMove(p, Line(p, n, g), g, blocked.items);
      RelistLocked(g, was);
    }

    /** Restores the index after bytes of `g` changed, which matters only while `g` has waiters. */
    method ReindexLocked(g: nat, ghost p: Pool)
      requires fair && Shape(p) && Shape(View()) && g < |groups| == |p.groups|
      requires p.waiters == waiters && p.waiting == waiting
      requires forall k | 0 <= k < |groups| && k != g :: groups[k] == p.groups[k]
      requires Listed() && Ordered(blocked.items, NeedMap(p.groups, p.waiters))
      modifies this`waiting, this`reserveReady, blocked
      ensures Valid() && View() == old(View()) && reserveReady == RO.Rank(View(), old(reserveReady), g)
    {
      ghost var was := NeedsMove(p, View(), g, blocked.items);
      assert GroupShape(View(), g);
      WithoutMembers(reserveReady, g);
      if |groups[g].queue| != 0 {
        RelistLocked(g, was);
      } else {
        assert g !in blocked.items;
        AbsentNeed(blocked.items, Needs(), g, was);
      }
    }

    method PayLocked(n: nat, g: nat, isEscape: bool)
      requires fair && Valid() && g < |groups|
      modifies this, blocked
      ensures Valid() && View() == Charge(old(View()), n, g, isEscape)
      ensures reserveReady == RO.Rank(View(), old(reserveReady), g)
    {
      ghost var p := View();
      ChargeShape(p, n, g, isEscape);
      ChargeLocked(n, g, isEscape);
      ReindexLocked(g, p);
    }

    /** A granted waiter becomes bytes its owner holds. */
    method ConsumeLocked(w: nat)
      requires fair && Valid() && w < |waiters| && waiters[w].group < |groups|
      requires waiters[w].granted && !waiters[w].done
      modifies this, blocked
      ensures Valid() && View() == Consume(old(View()), w) && reserveReady == old(reserveReady)
    {
      ghost var p := View();
      ConsumeShape(p, w);
      GrantedNeeds(p, w);
      TakeLocked(w);
    }

    method TakeLocked(w: nat)
      requires w < |waiters| && waiters[w].group < |groups|
      modifies this`active, this`groups, this`waiters, this`names
      ensures View() == Consume(old(View()), w)
    {
      var g := waiters[w].group;
      groups := groups[g := groups[g].(pending := Dec(groups[g].pending))];
      waiters := waiters[w := waiters[w].(done := true)];
      ActivateLocked(g);
      UnregisterLocked(g);
    }

    method FitsLocked(n: nat, g: nat) returns (fits: bool)
      requires fair ==> g < |groups|
      ensures fits == Fits(View(), n, g)
    {
      if total == 0 {
        return true;
      }
      var net := if fair then Less(used, escape) else used;
      if n > total || net > total - n {
        return false;
      }
      if !fair || net + n + reserve <= total {
        return true;
      }
      var share := GroupShare(g);
      fits := n <= share && groups[g].used <= share - n;
    }

    /** Reserves `n` bytes for a client of group `g`, at once or through a waiter. */
    method ReserveFor(n: nat, force: bool, g: nat, w: Option<nat>)
      returns (ok: bool, overshot: bool, now: nat, waiter: Option<nat>)
      requires Valid() && n > 0 && BudgetSpec.Known(View(), g, w)
      modifies this, blocked
      ensures Valid()
      ensures var r := Ask(old(View()), n, force, g, w);
        Reserved(old(View()), n, force, g, w, View(), r) && ok == r.ok && overshot == r.overshot && waiter == r.waiter
      ensures BR.Owed(old(View()), BR.Reserve(n, force, g, w)) ==>
        RO.DeskPerformed(old(AtDesk()), BR.Reserve(n, force, g, w), AtDesk())
      ensures now == used
    {
      ghost var d, owed := AtDesk(), BR.Owed(View(), BR.Reserve(n, force, g, w));
      if !fair {
        var fits := FitsLocked(n, g);
        if fits || force {
          used := used + n;
          return true, !fits, used, None;
        }
        return false, false, used, Some(legacyWakes);
      }
      if w.Some? && waiters[w.value].granted {
        ConsumeLocked(w.value);
        if owed { RO.DeskTakes(d, n, force, g, w.value, AtDesk()); }
        return true, false, used, None;
      }
      if w.Some? && !force {
        if owed { RO.DeskTakes(d, n, force, g, w.value, AtDesk()); }
        return false, false, used, w;
      }
      if w.Some? {
        overshot := ForceLocked(n, g, w.value);
        return true, overshot, used, None;
      }
      ok, overshot, waiter := AskLocked(n, force, g);
      now := used;
    }

    /** A forced request whose waiter was not granted gives it up and is charged at once. */
    method ForceLocked(n: nat, g: nat, w: nat) returns (overshot: bool)
      requires fair && Valid() && n > 0 && BudgetSpec.Known(View(), g, Some(w)) && !waiters[w].granted
      modifies this, blocked
      ensures Valid()
      ensures var r := Ask(old(View()), n, true, g, Some(w));
        Reserved(old(View()), n, true, g, Some(w), View(), r) && overshot == r.overshot
      ensures BR.Owed(old(View()), BR.Reserve(n, true, g, Some(w))) ==>
        RO.DeskPerformed(old(AtDesk()), BR.Reserve(n, true, g, Some(w)), AtDesk())
    {
      ghost var d := AtDesk();
      RemoveWaiterLocked(w);
      ghost var l := AtDesk();
      var fits := FitsLocked(n, g);
      overshot := !fits || |groups[g].queue| != 0;
      PayLocked(n, g, overshot);
      ghost var m := AtDesk();
      ghost var ks := ScheduleLocked();
      if BR.Owed(d.pool, BR.Reserve(n, true, g, Some(w))) { RO.DeskForces(d, n, g, w, l, m, ks, AtDesk()); }
    }

    /** A request without a waiter is charged at once or queued. */
    method AskLocked(n: nat, force: bool, g: nat) returns (ok: bool, overshot: bool, waiter: Option<nat>)
      requires fair && Valid() && n > 0 && BudgetSpec.Known(View(), g, None)
      modifies this, blocked
      ensures Valid()
      ensures var r := Ask(old(View()), n, force, g, None);
        Reserved(old(View()), n, force, g, None, View(), r) && ok == r.ok && overshot == r.overshot && waiter == r.waiter
      ensures BR.Owed(old(View()), BR.Reserve(n, force, g, None)) ==>
        RO.DeskPerformed(old(AtDesk()), BR.Reserve(n, force, g, None), AtDesk())
    {
      ghost var d, owed := AtDesk(), BR.Owed(View(), BR.Reserve(n, force, g, None));
      var fits := FitsLocked(n, g);
      if force || (fits && |groups[g].queue| == 0) {
        overshot := !fits || |groups[g].queue| != 0;
        PayLocked(n, g, overshot);
        if owed { RO.DeskPays(d, n, force, g, AtDesk()); }
        return true, overshot, None;
      }
      waiter := Some(|waiters|);
      EnqueueLocked(n, g);
      ghost var m := AtDesk();
      ghost var ks := ScheduleLocked();
      if owed { RO.DeskQueues(d, n, force, g, m, ks, AtDesk()); }
      return false, false, waiter;
    }

    /** Gives up a waiter and lets others use what it held. */
    method Cancel(w: nat)
      requires Valid() && (fair ==> w < |waiters| && waiters[w].group < |groups| && !waiters[w].done)
      modifies this, blocked
      ensures Valid() && Cancelled(old(View()), w, View())
      ensures fair ==> RO.DeskPerformed(old(AtDesk()), BR.Cancel(w), AtDesk())
    {
      if fair {
        ghost var d := AtDesk();
        ghost var m, ks := LeaveLocked(w);
        RO.DeskCancels(d, w, m, ks, AtDesk());
      }
    }

    /** Unlinks a waiter and runs the scheduler. */
    method LeaveLocked(w: nat) returns (ghost m: RO.Desk, ghost ks: seq<RO.Pick>)
      requires fair && Valid() && w < |waiters| && waiters[w].group < |groups| && !waiters[w].done
      modifies this, blocked
      ensures Valid() && RO.Scheduled(m, ks, AtDesk())
      ensures m.pool == RemoveWaiter(old(View()), w)
      ensures m.ready == RO.Rank(m.pool, old(reserveReady), old(waiters)[w].group)
    {
      RemoveWaiterLocked(w);
      m := AtDesk();
      ks := ScheduleLocked();
    }

    /** Returns `n` bytes, `back` of them an escape, and lets waiters use them. */
    method ReleaseFor(n: nat, back: nat, g: nat)
      requires Valid() && (fair ==> g < |groups|)
      modifies this, blocked
      ensures Valid() && Released(old(View()), n, back, g, View())
      ensures fair && BR.Owed(old(View()), BR.GiveBack(n, back, g)) ==>
        RO.DeskPerformed(old(AtDesk()), BR.GiveBack(n, back, g), AtDesk())
    {
      ghost var d, owed := AtDesk(), BR.Owed(View(), BR.GiveBack(n, back, g));
      if n == 0 {
        if owed { RO.DeskIdles(d, BR.GiveBack(n, back, g), d); }
        return;
      }
      if !fair {
        used := used - Min(n, used);
        legacyWakes := legacyWakes + 1;
        return;
      }
      ReturnLocked(n, back, g);
      ghost var m := AtDesk();
      ghost var ks := ScheduleLocked();
      if owed { RO.DeskReleases(d, n, back, g, m, ks, AtDesk()); }
    }

    method ReturnLocked(n: nat, back: nat, g: nat)
      requires fair && Valid() && g < |groups|
      modifies this, blocked
      ensures Valid() && View() == Release(old(View()), n, back, g)
      ensures reserveReady == RO.Rank(View(), old(reserveReady), g)
    {
      ghost var p := View();
      ReleaseShape(p, n, back, g);
      ReleaseLocked(n, back, g);
      ReindexLocked(g, p);
    }

    /** Finds or creates the group of a client. An ungrouped budget has none; an empty name is refused
        by a fair one. */
    method Join(key: string) returns (g: Option<nat>)
      requires Valid()
      modifies this, blocked
      ensures Valid() && (View(), g) == Register(old(View()), key) && reserveReady == old(reserveReady)
    {
      if !fair || key == "" {
        return None;
      }
      ghost var p := View();
      RegisterShape(p, key);
      if key in names && names[key] < |groups| {
        g := Some(names[key]);
        groups := groups[g.value := groups[g.value].(refs := groups[g.value].refs + 1)];
      } else {
        g := Some(|groups|);
        names := names[key := |groups|];
        groups := groups + [Group(key, 1, 0, 0, 0, false, [])];
      }
      assert NeedMap(p.groups, p.waiters) == Needs();
    }

    method Part(g: nat)
      requires Valid() && fair && g < |groups|
      modifies this, blocked
      ensures Valid() && View() == Unref(old(View()), g) && reserveReady == old(reserveReady)
    {
      ghost var p := View();
      UnrefShape(p, g);
      UnregisterLocked(g);
      assert NeedMap(p.groups, p.waiters) == Needs();
    }

    lemma NeedsUnchanged(k: nat)
      requires k in Needs()
      ensures Needs()[k := Needs()[k]] == Needs()
    {
    }
  }

  lemma PendingActive(p: Pool, w: nat)
    requires Shape(p) && w < |p.waiters| && !p.waiters[w].done
    ensures p.waiters[w].group < |p.groups|
    ensures p.groups[p.waiters[w].group].pending > 0 && p.groups[p.waiters[w].group].active
  {
    assert WaiterShape(p, w) && GroupShape(p, p.waiters[w].group);
    SumAtLeast(p.waiters, w, PendingIn(p.waiters[w].group));
  }

  /** A granted waiter heads no queue, so no need depends on it. */
  lemma GrantedNeeds(p: Pool, w: nat)
    requires Shape(p) && w < |p.waiters| && p.waiters[w].granted && p.waiters[w].group < |p.groups|
    ensures NeedMap(Consume(p, w).groups, Consume(p, w).waiters) == NeedMap(p.groups, p.waiters)
  {
    forall k | 0 <= k < |p.groups| && |p.groups[k].queue| != 0
      ensures NeedOf(Consume(p, w).groups, Consume(p, w).waiters, k) == NeedOf(p.groups, p.waiters, k)
    {
      assert GroupShape(p, k) && p.groups[k].queue[0] in p.groups[k].queue;
      assert Queued(p, k, p.groups[k].queue[0]);
    }
  }

  lemma OneMorePick(d: RO.Desk, ks: seq<RO.Pick>, k: RO.Pick)
    requires RO.AllProper(d, ks) && RO.Proper(RO.Serves(d, ks), k)
    ensures RO.AllProper(d, ks + [k]) && RO.Serves(d, ks + [k]) == RO.Serve(RO.Serves(d, ks), k)
  {
    assert (ks + [k])[..|ks|] == ks;
  }

  /** The place of a relisted group is the specified one. */
  lemma RankIs(p: Pool, was: seq<nat>, g: nat, ready: bool, now: seq<nat>)
    requires g < |p.groups|
    requires ready <==> |p.groups[g].queue| != 0 && NeedOf(p.groups, p.waiters, g)
                        <= ShareOf(p.total, p.minGroup, if p.groups[g].active then p.active else p.active + 1)
    requires now == if !ready then Without(was, g) else if g in was then was else was + [g]
    ensures now == RO.Rank(Relist(p, g), was, g)
  {
    RelistedWithin(p, Relist(p, g), g);
  }

  lemma RelistedWithin(p: Pool, q: Pool, g: nat)
    requires g < |p.groups| && q == Relist(p, g)
    ensures RO.Within(q, g) <==> |p.groups[g].queue| != 0 && Need(p, g) <= Share(p, g)
  {
    WithoutMembers(p.waiting, g);
    assert q == p.(waiting := q.waiting);
    assert g in q.waiting <==> |p.groups[g].queue| != 0;
  }

  /** Groups in order of need. */
  ghost predicate Climbing(s: seq<nat>, needs: map<nat, nat>) {
    && (forall i | 0 <= i < |s| :: s[i] in needs)
    && forall i, j | 0 <= i < j < |s| :: needs[s[i]] <= needs[s[j]]
  }

  /** The root of an ordered heap has the least need. */
  lemma RootBelow(items: seq<nat>, x: nat, needs: map<nat, nat>)
    requires Ordered(items, needs) && x in items
    ensures items[0] in needs && x in needs && needs[items[0]] <= needs[x]
  {
    var i :| 0 <= i < |items| && items[i] == x;
    RootLeast(items, needs, i);
  }

  lemma WithoutFirst(s: seq<nat>)
    requires Distinct(s) && |s| > 0
    ensures Without(s, s[0]) == s[1..]
  {
    forall i | 0 <= i < |s[1..]| ensures |Without(s, s[0])| == |s| - 1 && Without(s, s[0])[i] == s[1..][i] {
      WithoutPosition(s, 0, i + 1);
    }
    if |s| == 1 { assert s[..0] == [] && Without(s[..0], s[0]) == []; }
  }

  /** Where a group stands on the round-robin list does not matter for its share. */
  lemma SameWithin(p: Pool, q: Pool, g: nat)
    requires q == p.(waiting := q.waiting) && (g in q.waiting <==> g in p.waiting)
    ensures RO.Within(q, g) == RO.Within(p, g)
  {
  }

  /** The list after an election, in the terms of the pool. */
  lemma Elected(p: Pool, ready: seq<nat>, added: seq<nat>, dropped: nat, share: nat)
    requires Shape(p) && Distinct(ready + added) && Climbing(added, NeedMap(p.groups, p.waiters))
    requires forall g | g in p.waiting :: g < |p.groups| && Share(p, g) == share
    requires forall g | g in added :: g in p.waiting && NeedOf(p.groups, p.waiters, g) <= share
    requires forall g | g in p.waiting && g !in ready + added :: NeedOf(p.groups, p.waiters, g) > share
    requires dropped <= |ready + added|
    requires forall i | 0 <= i < dropped :: (ready + added)[i] in p.waiting
                                            && NeedOf(p.groups, p.waiters, (ready + added)[i]) > share
    ensures RO.Elects(RO.Desk(p, ready), added, dropped)
  {
    forall i, j | 0 <= i < j < |added| ensures added[i] != added[j] {
      assert (ready + added)[|ready| + i] != (ready + added)[|ready| + j];
    }
    forall i, j | 0 <= i < |ready| && 0 <= j < |added| ensures ready[i] != added[j] {
      assert (ready + added)[i] != (ready + added)[|ready| + j];
    }
    forall h ensures h in added <==> RO.Within(p, h) && h !in ready { }
    forall i, j | 0 <= i < j < |added|
      ensures added[i] < |p.groups| && added[j] < |p.groups| && Need(p, added[i]) <= Need(p, added[j])
    {
      assert added[i] in added && added[j] in added;
    }
  }

  lemma Pickable(p: Pool, g: nat)
    requires Shape(p) && g in p.waiting && (p.total != 0 ==> Net(p) < p.total)
    requires if Base(p) != 0 then g == p.waiting[0] else g < |p.groups| && Need(p, g) <= Share(p, g)
    ensures MayPick(p, g)
  {
    assert GroupShape(p, g) && p.groups[g].queue[0] in p.groups[g].queue;
    assert Queued(p, g, p.groups[g].queue[0]);
  }

  /** Touching one group and its own waiters changes that group's need alone. */
  lemma NeedsMove(p: Pool, q: Pool, g: nat, items: seq<nat>) returns (was: nat)
    requires Shape(p) && g < |p.groups| == |q.groups| && |p.waiters| <= |q.waiters|
    requires forall k | 0 <= k < |p.groups| && k != g ::
               q.groups[k].queue == p.groups[k].queue && q.groups[k].used == p.groups[k].used
    requires forall w | 0 <= w < |p.waiters| && p.waiters[w].group != g :: q.waiters[w] == p.waiters[w]
    requires Ordered(items, NeedMap(p.groups, p.waiters))
    ensures Ordered(items, NeedMap(q.groups, q.waiters)[g := was])
  {
    var m, m' := NeedMap(p.groups, p.waiters), NeedMap(q.groups, q.waiters);
    forall k | k != g
      ensures (k in m <==> k in m') && (k in m ==> m'[k] == m[k])
    {
      if k in m {
        assert GroupShape(p, k) && p.groups[k].queue[0] in p.groups[k].queue;
        assert Queued(p, k, p.groups[k].queue[0]);
      }
    }
    OneNeedChanged(items, m, m', g);
    was := if g in m then m[g] else 0;
  }

  /** What the root of an ordered heap exceeds, every group of it exceeds. */
  lemma BlockedBeyond(items: seq<nat>, needs: map<nat, nat>, t: nat)
    requires |items| != 0 && Ordered(items, needs) && needs[items[0]] > t
    ensures forall i | 0 <= i < |items| :: needs[items[i]] > t
  {
    forall i | 0 <= i < |items| ensures needs[items[i]] > t {
      RootLeast(items, needs, i);
    }
  }
}
