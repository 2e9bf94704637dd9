/** The fair share in plain arithmetic, by the number of groups that hold bytes or wait: who is admitted at
    once, who may be served from the reserve, how much a turn gives, and when nothing usable is left. */
module BudgetShares {
  import opened Words
  import opened Tables
  import opened BudgetSpec
  import opened BudgetShape
  import opened BudgetLaws
  import opened BudgetTheorems

  predicate IsBusy(x: Group) {
    x.used != 0 || x.pending != 0
  }

  ghost function BusyBit(): Group -> nat { (x: Group) => if IsBusy(x) then 1 else 0 }

  /** How many groups hold bytes or have waiters. */
  ghost function Busy(p: Pool): nat {
    Sum(p.groups, BusyBit())
  }

  /** The same once group `g` counts. */
  ghost function BusyWith(p: Pool, g: nat): nat
    requires g < |p.groups|
  {
    Busy(p) + if IsBusy(p.groups[g]) then 0 else 1
  }

  /** `x` bytes are at most the minimum of a group, or at most its part of the total among `k` groups, and
      always at most half. */
  predicate IsFair(p: Pool, k: nat, x: nat) {
    x <= p.minGroup || x * Max(2, k) <= p.total
  }

  lemma DivIff(total: nat, k: nat, x: nat)
    requires k >= 1
    ensures x <= total / k <==> x * k <= total
  {
    var y := total / k;
    assert total == y * k + total % k;
    if x <= y { MulMonotone(k, x, y); } else { MulMonotone(k, y + 1, x); }
  }

  lemma ShareIsFair(total: nat, minGroup: nat, k: nat, x: nat)
    ensures x <= ShareOf(total, minGroup, k) <==> x <= minGroup || x * Max(2, k) <= total
  {
    DivIff(total, Max(k, 2), x);
  }

  /** The active count is the number of busy groups. */
  lemma BusyIsActive(p: Pool)
    requires Shape(p) && Books(p)
    ensures Busy(p) == p.active
    ensures forall g | 0 <= g < |p.groups| :: p.groups[g].active == IsBusy(p.groups[g])
  {
    forall g | 0 <= g < |p.groups| ensures p.groups[g].active == IsBusy(p.groups[g]) { assert GroupShape(p, g); }
    SumSame(p.groups, BusyBit(), ActiveBit());
  }

  lemma ShareIff(p: Pool, g: nat, x: nat)
    requires Shape(p) && Books(p) && g < |p.groups|
    ensures x <= Share(p, g) <==> IsFair(p, BusyWith(p, g), x)
  {
    BusyIsActive(p);
    ShareIsFair(p.total, p.minGroup, BusyWith(p, g), x);
  }

  // ----- Admission -----

  /** Bytes that fit: within the cap, and outside the reserve or within what is fair to the group. */
  ghost predicate HasRoom(p: Pool, n: nat, g: nat)
    requires g < |p.groups|
  {
    || p.total == 0
    || (&& Net(p) + n <= p.total
        && (Net(p) + n + p.reserve <= p.total || IsFair(p, BusyWith(p, g), p.groups[g].used + n)))
  }

  lemma FitsIff(p: Pool, n: nat, g: nat)
    requires Inv(p) && g < |p.groups|
    ensures Fits(p, n, g) <==> HasRoom(p, n, g)
  {
    ShareIff(p, g, p.groups[g].used + n);
  }

  /** Exactly which requests without a waiter a fair pool admits at once, and which of them overshoot: without
      force those that have room and no queue of their group before them, with force all, and exactly the
      others overshoot. */
  lemma AdmittedIff(p: Pool, n: nat, force: bool, g: nat)
    requires Inv(p) && Known(p, g, None)
    ensures var r, room := Ask(p, n, force, g, None), |p.groups[g].queue| == 0 && HasRoom(p, n, g);
      (r.ok <==> force || room) && (r.overshot <==> force && !room)
  {
    FitsIff(p, n, g);
  }

  /** With a waiter of its own: admitted exactly if that was granted or by force, and then never an overshoot
      if it was granted; otherwise as a new request of a pool that its waiter has left. */
  lemma WaiterAdmittedIff(p: Pool, n: nat, force: bool, g: nat, w: nat)
    requires Inv(p) && Known(p, g, Some(w))
    ensures var r := Ask(p, n, force, g, Some(w));
      && (r.ok <==> p.waiters[w].granted || force) && (!r.ok ==> r.waiter == Some(w) && r.pool == p)
      && (p.waiters[w].granted ==> !r.overshot)
      && (force && !p.waiters[w].granted ==>
            var q := RemoveWaiter(p, w);
            r.overshot <==> |q.groups[g].queue| != 0 || !HasRoom(q, n, g))
  {
    if force && !p.waiters[w].granted {
      LeaveKeepsInv(p, w);
      FitsIff(RemoveWaiter(p, w), n, g);
    }
  }

  /** The same of an ungrouped pool, which only has a cap. */
  lemma UngroupedIff(p: Pool, n: nat, force: bool, g: nat, w: Option<nat>)
    requires !p.fair
    ensures var r, room := Ask(p, n, force, g, w), p.total == 0 || p.used + n <= p.total;
      && (r.ok <==> force || room) && (r.overshot <==> force && !room)
      && r.pool == p.(used := p.used + if r.ok then n else 0)
  {
  }

  /** Whoever is admitted without force leaves the reserve alone, or is within what is fair to a group among
      the groups that are busy then. */
  lemma AdmittedIsFair(p: Pool, n: nat, g: nat)
    requires Inv(p) && p.total != 0 && n > 0 && Known(p, g, None) && Ask(p, n, false, g, None).ok
    ensures var q := Ask(p, n, false, g, None).pool;
      Net(q) + q.reserve <= q.total || IsFair(q, Busy(q), q.groups[g].used)
  {
    var q := Ask(p, n, false, g, None).pool;
    AdmittedIff(p, n, false, g);
    FitsUnderCap(p, n);
    SumUpdate(p.groups, g, q.groups[g], BusyBit());
  }

  // ----- The scheduler -----

  /** What a waiting group would hold once its oldest request is served. */
  function Wants(p: Pool, g: nat): int
    requires g < |p.groups| && |p.groups[g].queue| != 0 && p.groups[g].queue[0] < |p.waiters|
  {
    p.groups[g].used + p.waiters[p.groups[g].queue[0]].n - p.waiters[p.groups[g].queue[0]].credit
  }

  /** A group that waits for what is fair to it. */
  ghost predicate Deserves(p: Pool, g: nat) {
    && g in p.waiting && g < |p.groups| && |p.groups[g].queue| != 0 && p.groups[g].queue[0] < |p.waiters|
    && Wants(p, g) >= 0 && IsFair(p, Busy(p), Wants(p, g))
  }

  /** Needs that do not saturate, or a minimum share that a saturated one exceeds. */
  ghost predicate Countable(p: Pool, g: nat) {
    p.minGroup < MAX64
    || (g < |p.groups| && |p.groups[g].queue| != 0 && p.groups[g].queue[0] < |p.waiters| && Wants(p, g) <= MAX64)
  }

  lemma WaitingHead(p: Pool, g: nat)
    requires Shape(p) && g in p.waiting
    ensures g < |p.groups| && |p.groups[g].queue| != 0 && p.groups[g].queue[0] < |p.waiters| && p.groups[g].active
    ensures p.waiters[p.groups[g].queue[0]].credit < p.waiters[p.groups[g].queue[0]].n
  {
    assert GroupShape(p, g);
    WaitingActive(p, g);
    assert p.groups[g].queue[0] in p.groups[g].queue;
    assert Queued(p, g, p.groups[g].queue[0]);
  }

  /** A need within the share is exactly a wish that is fair. */
  lemma DeservesIff(p: Pool, g: nat)
    requires Inv(p) && g in p.waiting && Countable(p, g)
    ensures g < |p.groups| && (Need(p, g) <= Share(p, g) <==> Deserves(p, g))
  {
    WaitingHead(p, g);
    BusyIsActive(p);
    ShareIff(p, g, Wants(p, g));
    if Wants(p, g) > MAX64 {
      HugeIsUnfair(p, Busy(p), Wants(p, g));
      HugeIsUnfair(p, Busy(p), MAX64);
      ShareIff(p, g, MAX64);
    }
  }

  lemma HugeIsUnfair(p: Pool, k: nat, x: nat)
    requires p.minGroup < MAX64 <= x && p.total <= MAX64
    ensures !IsFair(p, k, x)
  {
    MulMonotone(x, 2, Max(2, k));
  }

  /** Exactly who may get the next turn: the first in line while there is room below the reserve, afterwards
      whoever waits for what is fair to it, as long as there is room below the cap. */
  lemma TurnIff(p: Pool, g: nat)
    requires Inv(p) && g in p.waiting && Countable(p, g)
    ensures MayPick(p, g) <==>
      && (p.total != 0 ==> Net(p) < p.total)
      && (if p.total == 0 || Net(p) + p.reserve < p.total then g == p.waiting[0] else Deserves(p, g))
  {
    WaitingHead(p, g);
    DeservesIff(p, g);
  }

  /** Exactly when the scheduler stops: nobody waits, or the cap is reached, or only the reserve is left and
      nobody waits for what is fair to it. */
  lemma QuietMeans(p: Pool)
    requires Inv(p) && forall g | g in p.waiting :: Countable(p, g)
    ensures Quiet(p) <==>
      || |p.waiting| == 0
      || (p.total != 0 && Net(p) >= p.total)
      || (p.total != 0 && Net(p) + p.reserve >= p.total && forall g | g in p.waiting :: !Deserves(p, g))
  {
    forall g | g in p.waiting ensures g < |p.groups| && (Need(p, g) <= Share(p, g) <==> Deserves(p, g)) {
      DeservesIff(p, g);
    }
  }

  /** A turn gives as much as it can: it completes the request, or gives 64 KiB, or uses up the room below
      the cap, or the room below the reserve if the group waits for more than what is fair to it. */
  lemma TurnIsMaximal(p: Pool, g: nat)
    requires Inv(p) && MayPick(p, g) && Countable(p, g)
    ensures var q, h := Credit(p, g), p.groups[g].queue[0];
      && h < |q.waiters|
      && (|| q.waiters[h].credit == q.waiters[h].n
          || q.waiters[h].credit == p.waiters[h].credit + 0x1_0000
          || (p.total != 0 && Net(q) == p.total)
          || (p.total != 0 && Net(q) + p.reserve == p.total && !Deserves(p, g)))
  {
    CreditEffect(p, g);
    DeservesIff(p, g);
    if p.total != 0 { FitsUnderCap(p, Amount(p, g)); }
  }

  /** A turn leaves the reserve alone, or the group within what is fair to it. */
  lemma TurnIsFair(p: Pool, g: nat)
    requires Inv(p) && p.total != 0 && MayPick(p, g) && Countable(p, g)
    ensures var q := Credit(p, g);
      g < |q.groups| && (Net(q) + q.reserve <= q.total || IsFair(q, Busy(q), q.groups[g].used))
  {
    var q := Credit(p, g);
    TurnProgress(p, g);
    TurnKeepsInv(p, g);
    CreditEffect(p, g);
    FitsUnderCap(p, Amount(p, g));
    DeservesIff(p, g);
    BusyIsActive(p);
    BusyIsActive(q);
    WaitingHead(p, g);
    if Deserves(p, g) { MulMonotone(Max(2, Busy(p)), q.groups[g].used, Wants(p, g)); }
  }
}
