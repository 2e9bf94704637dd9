/** Main results about a fair pool: work conservation of every public operation, round-robin turns,
    FIFO escrow, and termination of the scheduler. */
module BudgetTheorems {
  import opened Words
  import opened Tables
  import opened BudgetSpec
  import opened BudgetShape
  import opened BudgetLaws

  lemma MulMonotone(x: nat, a: nat, b: nat)
    requires a <= b
    ensures x * a <= x * b
  {
  }

  lemma DivAntitone(total: nat, a: nat, b: nat)
    requires 0 < a <= b
    ensures total / b <= total / a
  {
    var x, y := total / b, total / a;
    MulMonotone(x, a, b);
    assert total == a * y + total % a;
    assert total == b * x + total % b;
    if y < x {
      MulMonotone(a, y + 1, x);
    }
  }

  /** More active groups never raise anybody's share. */
  lemma ShareAntitone(total: nat, minGroup: nat, a: nat, b: nat)
    requires a <= b
    ensures ShareOf(total, minGroup, b) <= ShareOf(total, minGroup, a)
  {
    DivAntitone(total, Max(a, 2), Max(b, 2));
  }

  // ----- Work conservation -----

  /** Quiet is exactly "the scheduler has no turn to give". */
  lemma QuietIff(p: Pool)
    requires Shape(p)
    ensures Quiet(p) <==> forall g :: !MayPick(p, g)
  {
    if !Quiet(p) {
      var g := if Base(p) != 0 then p.waiting[0]
               else var k :| k in p.waiting && k < |p.groups| && Need(p, k) <= Share(p, k); k;
      assert g in p.waiting;
      assert GroupShape(p, g);
      assert p.groups[g].queue[0] in p.groups[g].queue;
      assert Queued(p, g, p.groups[g].queue[0]);
      assert MayPick(p, g);
    }
  }

  /** Room that shrinks, needs that grow and a share that falls leave nothing new to do. */
  lemma StillQuiet(p: Pool, q: Pool)
    requires Shape(p) && Shape(q) && Quiet(p)
    requires q.total == p.total && q.reserve == p.reserve && q.minGroup == p.minGroup
    requires q.waiting == p.waiting && |q.groups| == |p.groups|
    requires (p.total != 0 ==> Net(q) >= Net(p)) && q.active >= p.active
    requires forall g | g in p.waiting && g < |p.groups| :: Need(q, g) >= Need(p, g)
    ensures Quiet(q)
  {
    ShareAntitone(p.total, p.minGroup, p.active, q.active);
    if |p.waiting| != 0 && !(p.total != 0 && Net(p) >= p.total) {
      forall g | g in q.waiting && g < |q.groups|
        ensures Need(q, g) > Share(q, g)
      {
        SameShare(p, g);
        SameShare(q, g);
      }
    }
  }

  /** Charging a group never frees room, whether inside the cap or as an escape. */
  lemma PayQuiet(p: Pool, n: nat, g: nat, escape: bool)
    requires Inv(p) && Quiet(p) && Due(p, Pay(n, g, escape)) && Inv(Charge(p, n, g, escape))
    ensures Quiet(Charge(p, n, g, escape))
  {
    ChargedNet(p, n, g, escape);
    ChargedNeeds(p, n, g, escape);
    StillQuiet(p, Charge(p, n, g, escape));
  }

  lemma ChargedNet(p: Pool, n: nat, g: nat, escape: bool)
    requires Config(p) && Due(p, Pay(n, g, escape))
    ensures p.total != 0 ==> Net(Charge(p, n, g, escape)) >= Net(p)
  {
    if p.total != 0 && !escape { FitsUnderCap(p, n); }
  }

  lemma ChargedNeeds(p: Pool, n: nat, g: nat, escape: bool)
    requires Shape(p) && g < |p.groups|
    ensures var q := Charge(p, n, g, escape);
      q.active >= p.active && forall k | 0 <= k < |p.groups| :: Need(q, k) >= Need(p, k)
  {
    assert GroupShape(p, g);
  }

  /** Taking a grant moves no bytes and deactivates nobody. */
  lemma TakeQuiet(p: Pool, w: nat)
    requires Inv(p) && Quiet(p) && Due(p, Take(w))
    ensures Quiet(Consume(p, w))
  {
    var q, g := Consume(p, w), p.waiters[w].group;
    TakeKeepsInv(p, w);
    WaiterWithin(p, w);
    assert Backed(p, g) && GroupShape(p, g) && WaiterShape(p, w);
    forall k | k in p.waiting && k < |p.groups|
      ensures Need(q, k) >= Need(p, k)
    {
      assert GroupShape(p, k) && p.groups[k].queue[0] in p.groups[k].queue;
      assert Queued(p, k, p.groups[k].queue[0]);
    }
    StillQuiet(p, q);
  }

  lemma {:induction false} CreditsKeepInv(p: Pool, picks: seq<nat>)
    requires Inv(p) && Legal(p, picks)
    ensures Inv(Credits(p, picks))
  {
    if |picks| > 0 {
      var init := picks[..|picks| - 1];
      CreditsKeepInv(p, init);
      TurnKeepsInv(Credits(p, init), picks[|picks| - 1]);
    }
  }

  lemma SettledKeeps(p: Pool, q: Pool)
    requires Inv(p) && Settled(p, q)
    ensures Inv(q) && Quiet(q)
  {
    var picks :| Legal(p, picks) && q == Credits(p, picks) && Quiet(q);
    CreditsKeepInv(p, picks);
  }

  /** The decision of a reservation keeps the invariant, and is quiet unless the scheduler runs next. */
  lemma AskKeeps(p: Pool, n: nat, force: bool, g: nat, w: Option<nat>)
    requires Inv(p) && Quiet(p) && n > 0 && Known(p, g, w)
    requires g < |p.groups| && p.groups[g].pending < p.groups[g].refs
    ensures Inv(Ask(p, n, force, g, w).pool)
    ensures !Ask(p, n, force, g, w).schedule ==> Quiet(Ask(p, n, force, g, w).pool)
  {
    if w.Some? && p.waiters[w.value].granted {
      TakeKeepsInv(p, w.value);
      TakeQuiet(p, w.value);
    } else if w.None? || force {
      var q := if w.Some? then RemoveWaiter(p, w.value) else p;
      if w.Some? {
        LeaveKeepsInv(p, w.value);
        LeaveRefs(p, w.value);
      }
      AskFresh(q, n, force, g);
    }
  }

  lemma LeaveRefs(p: Pool, w: nat)
    requires Inv(p) && Due(p, Leave(w))
    requires p.groups[p.waiters[w].group].pending < p.groups[p.waiters[w].group].refs
    ensures |RemoveWaiter(p, w).groups| == |p.groups|
    ensures var g := p.waiters[w].group; RemoveWaiter(p, w).groups[g].pending < RemoveWaiter(p, w).groups[g].refs
  {
    WaiterWithin(p, w);
  }

  /** A request without a waiter of its own, as decided on pool `q`. */
  lemma AskFresh(q: Pool, n: nat, force: bool, g: nat)
    requires Inv(q) && n > 0 && g < |q.groups| && q.groups[g].pending < q.groups[g].refs
    ensures var escape := !Fits(q, n, g) || |q.groups[g].queue| != 0;
      if force || !escape then Inv(Charge(q, n, g, escape)) && (Quiet(q) ==> Quiet(Charge(q, n, g, escape)))
      else Inv(Enqueue(q, n, g))
  {
    var escape := !Fits(q, n, g) || |q.groups[g].queue| != 0;
    if force || !escape {
      PayKeepsInv(q, n, g, escape);
      if Quiet(q) {
        PayQuiet(q, n, g, escape);
      }
    } else {
      ArriveKeepsInv(q, n, g);
    }
  }

  /** Work conservation: reserving leaves a valid pool in which no usable room is idle. */
  lemma ReservedKeeps(p: Pool, n: nat, force: bool, g: nat, w: Option<nat>, q: Pool, r: Reply)
    requires Inv(p) && Quiet(p) && n > 0 && Reserved(p, n, force, g, w, q, r)
    requires g < |p.groups| && p.groups[g].pending < p.groups[g].refs
    ensures Inv(q) && Quiet(q)
  {
    AskKeeps(p, n, force, g, w);
    if r.schedule {
      SettledKeeps(r.pool, q);
    }
  }

  /** Work conservation: so does giving up a waiter ... */
  lemma CancelledKeeps(p: Pool, w: nat, q: Pool)
    requires Inv(p) && Due(p, Leave(w)) && Cancelled(p, w, q)
    ensures Inv(q) && Quiet(q)
  {
    LeaveKeepsInv(p, w);
    SettledKeeps(RemoveWaiter(p, w), q);
  }

  /** ... and so does returning bytes. */
  lemma ReleasedKeeps(p: Pool, n: nat, back: nat, g: nat, q: Pool)
    requires Inv(p) && Quiet(p) && Due(p, Refund(n, back, g)) && Released(p, n, back, g, q)
    ensures Inv(q) && Quiet(q)
  {
    if n != 0 {
      RefundKeepsInv(p, n, back, g);
      SettledKeeps(Release(p, n, back, g), q);
    }
  }

  lemma RegisteredKeeps(p: Pool, key: string)
    requires Inv(p) && Quiet(p) && key != ""
    ensures Inv(Register(p, key).0) && Quiet(Register(p, key).0)
  {
    JoinKeepsInv(p, key);
    var q := Register(p, key).0;
    if !(|p.waiting| == 0 || (p.total != 0 && Net(p) >= p.total)) {
      forall g | g in q.waiting && g < |q.groups| ensures Need(q, g) > Share(q, g) {
        SameShare(p, g);
        SameShare(q, g);
      }
    }
  }

  lemma UnregisteredKeeps(p: Pool, g: nat)
    requires Inv(p) && Quiet(p) && Due(p, Part(g))
    ensures Inv(Unref(p, g)) && Quiet(Unref(p, g))
  {
    PartKeepsInv(p, g);
    StillQuiet(p, Unref(p, g));
  }

  // ----- Termination of the scheduler -----

  ghost function Owing(): Waiter -> nat {
    (w: Waiter) => if !w.granted && !w.done && w.credit < w.n then w.n - w.credit else 0
  }

  /** Request bytes not yet credited. */
  ghost function Outstanding(p: Pool): nat {
    Sum(p.waiters, Owing())
  }

  /** Each turn credits between one byte and 64 KiB to the oldest waiter of its group, within the
      room there is, and strictly reduces what is outstanding. */
  lemma TurnProgress(p: Pool, g: nat)
    requires Shape(p) && MayPick(p, g)
    ensures 0 < Amount(p, g) <= QUANTUM
    ensures p.total != 0 ==> Net(p) + Amount(p, g) <= p.total
    ensures Need(p, g) > Share(p, g) && p.total != 0 ==> Net(p) + Amount(p, g) + p.reserve <= p.total
    ensures Outstanding(Credit(p, g)) == Outstanding(p) - Amount(p, g)
  {
    CreditEffect(p, g);
    var h := p.groups[g].queue[0];
    SumUpdate(p.waiters, h, Credit(p, g).waiters[h], Owing());
  }

  // ----- In-group FIFO escrow -----

  /** Grants come in order of arrival: once a waiter is granted, so is every older waiter of its group
      that has not left, and each holds exactly its request. Only the oldest ungranted one holds a
      partial credit. */
  lemma FifoGrants(p: Pool, v: nat, w: nat)
    requires Inv(p) && v < w < |p.waiters| && p.waiters[v].group == p.waiters[w].group && !p.waiters[v].done
    ensures p.waiters[w].granted ==> p.waiters[v].granted && p.waiters[v].credit == p.waiters[v].n
    ensures !p.waiters[v].granted && !p.waiters[w].done ==> p.waiters[w].credit == 0
  {
    var g := p.waiters[v].group;
    assert WaiterShape(p, v) && WaiterShape(p, w) && GroupShape(p, g);
    if !p.waiters[v].granted {
      assert v in p.groups[g].queue;
      if !p.waiters[w].done {
        var j :| 0 <= j < |p.groups[g].queue| && p.groups[g].queue[j] == w;
        var i :| 0 <= i < |p.groups[g].queue| && p.groups[g].queue[i] == v;
        assert i < j;
      }
    }
  }

  /** Over any scheduler run a waiter's credit only grows, a closed wake stays closed, and a wake is
      closed exactly when the credit reaches the request. */
  lemma {:induction false} GrantedWhenFull(p: Pool, picks: seq<nat>, w: nat)
    requires Shape(p) && Legal(p, picks) && w < |p.waiters| && !p.waiters[w].done
    ensures var q := Credits(p, picks);
      && w < |q.waiters| && !q.waiters[w].done && q.waiters[w].n == p.waiters[w].n
      && q.waiters[w].group == p.waiters[w].group
      && p.waiters[w].credit <= q.waiters[w].credit <= q.waiters[w].n
      && (p.waiters[w].granted ==> q.waiters[w] == p.waiters[w])
      && (q.waiters[w].granted <==> q.waiters[w].credit == q.waiters[w].n)
  {
    assert WaiterShape(p, w);
    if |picks| == 0 {
      if !p.waiters[w].granted {
        assert GroupShape(p, p.waiters[w].group);
        assert Queued(p, p.waiters[w].group, w);
      }
    } else {
      var init, g := picks[..|picks| - 1], picks[|picks| - 1];
      GrantedWhenFull(p, init, w);
      CreditsShape(p, init);
      CreditEffect(Credits(p, init), g);
    }
  }

  /** Without force nobody gets past its own group: when a request is admitted, every request of the group
      that came before it and has not left was granted in full. */
  lemma NoBypass(p: Pool, n: nat, g: nat, w: Option<nat>, v: nat)
    requires Inv(p) && Known(p, g, w) && Ask(p, n, false, g, w).ok
    requires v < |p.waiters| && p.waiters[v].group == g && !p.waiters[v].done && (w.Some? ==> v < w.value)
    ensures p.waiters[v].granted && p.waiters[v].credit == p.waiters[v].n
  {
    assert WaiterShape(p, v);
    if w.Some? { FifoGrants(p, v, w.value); }
  }

  // ----- Round-robin -----

  ghost function Position(p: Pool, g: nat): nat
    requires g in p.waiting
    ensures Position(p, g) < |p.waiting| && p.waiting[Position(p, g)] == g
  {
    var i :| 0 <= i < |p.waiting| && p.waiting[i] == g; i
  }

  lemma PositionIs(p: Pool, g: nat, i: nat)
    requires Distinct(p.waiting) && i < |p.waiting| && p.waiting[i] == g
    ensures Position(p, g) == i
  {
  }

  /** An event passes group `g` by: it is not g's turn, and g waits before and after. */
  ghost predicate PassesBy(p: Pool, e: Event, g: nat) {
    Inv(p) && Due(p, e) && e != Turn(g) && g in p.waiting && g in Play(p, e).waiting
  }

  /** Unlinking another group, and appending any, keeps or improves a position. */
  lemma PositionAfter(s: seq<nat>, t: seq<nat>, h: nat, i: nat)
    requires Distinct(s) && i < |s| && s[i] != h && (t == Without(s, h) || t == Without(s, h) + [h])
    ensures i < |t| || (i > 0 && i - 1 < |t|)
    ensures h !in s ==> i < |t| && t[i] == s[i]
    ensures forall j | 0 <= j < |s| && s[j] == h :: var k := if j < i then i - 1 else i; k < |t| && t[k] == s[i]
  {
    WithoutMembers(s, h);
    forall j | 0 <= j < |s| && s[j] == h
      ensures var k := if j < i then i - 1 else i; k < |t| && t[k] == s[i]
    {
      WithoutPosition(s, j, i);
    }
    if h in s {
      var j :| 0 <= j < |s| && s[j] == h;
      var k := if j < i then i - 1 else i;
      assert k < |t|;
    }
  }

  lemma TurnForward(p: Pool, h: nat, g: nat)
    requires Inv(p) && MayPick(p, h) && h != g && g in p.waiting && g in Credit(p, h).waiting
    requires Distinct(Credit(p, h).waiting)
    ensures Position(Credit(p, h), g) <= Position(p, g)
    ensures Base(p) != 0 ==> Position(Credit(p, h), g) == Position(p, g) - 1
  {
    var q, i, j := Credit(p, h), Position(p, g), Position(p, h);
    PositionAfter(p.waiting, q.waiting, h, i);
    PositionIs(q, g, if j < i then i - 1 else i);
    if Base(p) != 0 { PositionIs(p, h, 0); }
  }

  lemma LeaveForward(p: Pool, w: nat, g: nat)
    requires Inv(p) && Due(p, Leave(w)) && g in p.waiting && g in RemoveWaiter(p, w).waiting
    requires Distinct(RemoveWaiter(p, w).waiting)
    ensures Position(RemoveWaiter(p, w), g) <= Position(p, g)
  {
    var q, i, h := RemoveWaiter(p, w), Position(p, g), p.waiters[w].group;
    assert GroupShape(p, h);
    WithoutMembers(p.waiting, h);
    WithoutMembers(p.groups[h].queue, w);
    if q.waiting == p.waiting {
      PositionIs(q, g, i);
    } else {
      assert h in p.waiting && q.waiting == Without(p.waiting, h);
      PositionAfter(p.waiting, q.waiting, h, i);
      PositionIs(q, g, if Position(p, h) < i then i - 1 else i);
    }
  }

  /** A group that keeps waiting never moves back, and moves forward whenever room below the reserve
      goes to somebody else. */
  lemma NeverBack(p: Pool, e: Event, g: nat)
    requires PassesBy(p, e, g)
    ensures Position(Play(p, e), g) <= Position(p, g)
    ensures e.Turn? && Base(p) != 0 ==> Position(Play(p, e), g) == Position(p, g) - 1
  {
    EventKeepsInv(p, e);
    match e
    case Turn(h) => TurnForward(p, h, g);
    case Leave(w) => LeaveForward(p, w, g);
    case _ => PositionIs(Play(p, e), g, Position(p, g));
  }

  /** The pool after a run of events. */
  function PlayAll(p: Pool, es: seq<Event>): Pool {
    if |es| == 0 then p else Play(PlayAll(p, es[..|es| - 1]), es[|es| - 1])
  }

  ghost predicate AllPassBy(p: Pool, es: seq<Event>, g: nat) {
    |es| == 0 || (AllPassBy(p, es[..|es| - 1], g) && PassesBy(PlayAll(p, es[..|es| - 1]), es[|es| - 1], g))
  }

  /** How many turns of a run were paid from room below the reserve. */
  ghost function BaseTurns(p: Pool, es: seq<Event>): nat {
    if |es| == 0 then 0
    else BaseTurns(p, es[..|es| - 1])
         + if es[|es| - 1].Turn? && Base(PlayAll(p, es[..|es| - 1])) != 0 then 1 else 0
  }

  /** Round-robin: while a group waits uncredited, through any mix of arrivals, departures, charges and
      refunds, at most as many base turns go to others as there were groups in front of it. */
  lemma {:induction false} ServedInTurn(p: Pool, es: seq<Event>, g: nat)
    requires AllPassBy(p, es, g) && g in p.waiting
    ensures g in PlayAll(p, es).waiting
    ensures BaseTurns(p, es) + Position(PlayAll(p, es), g) <= Position(p, g)
  {
    if |es| > 0 {
      var init, e := es[..|es| - 1], es[|es| - 1];
      ServedInTurn(p, init, g);
      NeverBack(PlayAll(p, init), e, g);
    }
  }
}
