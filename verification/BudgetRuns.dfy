/** Every public operation of a fair pool is a run of its events, so what events keep, and the order in
    which they serve groups, holds for whole runs of operations. */
module BudgetRuns {
  import opened Words
  import opened Tables
  import opened BudgetSpec
  import opened BudgetShape
  import opened BudgetLaws
  import opened BudgetTheorems

  ghost predicate AllDue(p: Pool, es: seq<Event>) {
    |es| == 0 || (AllDue(p, es[..|es| - 1]) && Due(PlayAll(p, es[..|es| - 1]), es[|es| - 1]))
  }

  lemma {:induction false} RunKeepsInv(p: Pool, es: seq<Event>)
    requires Inv(p) && AllDue(p, es)
    ensures Inv(PlayAll(p, es))
  {
    if |es| > 0 {
      RunKeepsInv(p, es[..|es| - 1]);
      EventKeepsInv(PlayAll(p, es[..|es| - 1]), es[|es| - 1]);
    }
  }

  // ----- Operations -----

  /** The public operations of a fair pool. */
  datatype Operation =
    | Reserve(n: nat, force: bool, g: nat, own: Option<nat>)
    | Cancel(w: nat)
    | GiveBack(n: nat, back: nat, g: nat)
    | Enter(key: string)
    | Exit(g: nat)

  /** What the caller of an operation owes the pool. */
  ghost predicate Owed(p: Pool, op: Operation) {
    match op
    case Reserve(n, force, g, w) =>
      n > 0 && p.fair && Known(p, g, w) && p.groups[g].pending < p.groups[g].refs
    case Cancel(w) => Due(p, Leave(w))
    case GiveBack(n, back, g) => Due(p, Refund(n, back, g))
    case Enter(key) => Due(p, Join(key))
    case Exit(g) => Due(p, Part(g))
  }

  /** `q` is a possible outcome of an operation on `p`. */
  ghost predicate Performed(p: Pool, op: Operation, q: Pool) {
    && Owed(p, op)
    && match op
       case Reserve(n, force, g, w) => Reserved(p, n, force, g, w, q, Ask(p, n, force, g, w))
       case Cancel(w) => Cancelled(p, w, q)
       case GiveBack(n, back, g) => Released(p, n, back, g, q)
       case Enter(key) => q == Register(p, key).0
       case Exit(g) => q == Unref(p, g)
  }

  /** The events of a reservation that the pool decides on its own, the request's waiter apart. */
  ghost function Decision(p: Pool, n: nat, force: bool, g: nat, w: Option<nat>): Event
    requires Known(p, g, w)
  {
    var r := Ask(p, n, force, g, w);
    if r.ok then Pay(n, g, r.overshot) else Arrive(n, g)
  }

  /** The events of an operation before the scheduler runs. */
  ghost function Opening(p: Pool, op: Operation): seq<Event> {
    if !Owed(p, op) then [] else
    match op
    case Reserve(n, force, g, w) =>
      if w.None? then [Decision(p, n, force, g, w)]
      else if p.waiters[w.value].granted then [Take(w.value)]
      else if force then [Leave(w.value), Decision(p, n, force, g, w)]
      else []
    case Cancel(w) => [Leave(w)]
    case GiveBack(n, back, g) => if n == 0 then [] else [Refund(n, back, g)]
    case Enter(key) => [Join(key)]
    case Exit(g) => [Part(g)]
  }

  /** The pool when the scheduler starts, or when the operation ends without it. */
  ghost function Opened(p: Pool, op: Operation): Pool {
    PlayAll(p, Opening(p, op))
  }

  ghost predicate Schedules(p: Pool, op: Operation)
    requires Owed(p, op)
  {
    match op
    case Reserve(n, force, g, w) => Ask(p, n, force, g, w).schedule
    case Cancel(w) => true
    case GiveBack(n, back, g) => n != 0
    case _ => false
  }

  /** `picks` are the groups the scheduler credits in an operation that leads from `p` to `q`. */
  ghost predicate Took(p: Pool, op: Operation, picks: seq<nat>, q: Pool) {
    && Owed(p, op)
    && if Schedules(p, op) then Legal(Opened(p, op), picks) && q == Credits(Opened(p, op), picks) && Quiet(q)
       else picks == [] && q == Opened(p, op)
  }

  lemma PlayOne(p: Pool, e: Event)
    ensures PlayAll(p, [e]) == Play(p, e)
    ensures AllDue(p, [e]) <==> Due(p, e)
  {
    assert [e][..0] == [];
  }

  lemma PlayTwo(p: Pool, e: Event, f: Event)
    ensures PlayAll(p, [e, f]) == Play(Play(p, e), f)
    ensures AllDue(p, [e, f]) <==> Due(p, e) && Due(Play(p, e), f)
  {
    PlayOne(p, e);
    assert [e, f][..1] == [e];
  }

  /** A request without a waiter is charged or queued. */
  lemma DecisionDue(p: Pool, n: nat, force: bool, g: nat)
    requires Inv(p) && Owed(p, Reserve(n, force, g, None))
    ensures Due(p, Decision(p, n, force, g, None))
    ensures Play(p, Decision(p, n, force, g, None)) == Ask(p, n, force, g, None).pool
  {
  }

  /** A forced request first gives up its waiter. */
  lemma ForcedDue(p: Pool, n: nat, g: nat, w: nat)
    requires Inv(p) && Owed(p, Reserve(n, true, g, Some(w))) && !p.waiters[w].granted
    ensures var e, f := Leave(w), Decision(p, n, true, g, Some(w));
      && Due(p, e) && Due(Play(p, e), f) && Play(Play(p, e), f) == Ask(p, n, true, g, Some(w)).pool
  {
    LeaveKeepsInv(p, w);
    LeaveRefs(p, w);
    DecisionDue(RemoveWaiter(p, w), n, true, g);
  }

  /** The events of an operation are due when they happen, and the scheduler starts where they end. */
  lemma OpeningDue(p: Pool, op: Operation)
    requires Inv(p) && Owed(p, op)
    ensures AllDue(p, Opening(p, op))
    ensures op.Reserve? ==> Opened(p, op) == Ask(p, op.n, op.force, op.g, op.own).pool
  {
    match op
    case Reserve(n, force, g, w) =>
      if w.None? {
        DecisionDue(p, n, force, g);
        PlayOne(p, Decision(p, n, force, g, w));
      } else if p.waiters[w.value].granted {
        PlayOne(p, Take(w.value));
      } else if force {
        ForcedDue(p, n, g, w.value);
        PlayTwo(p, Leave(w.value), Decision(p, n, force, g, w));
      }
    case Cancel(w) => PlayOne(p, Leave(w));
    case GiveBack(n, back, g) => PlayOne(p, Refund(n, back, g));
    case Enter(key) => PlayOne(p, Join(key));
    case Exit(g) => PlayOne(p, Part(g));
  }

  /** Every public operation is its opening events followed by turns of the scheduler. */
  lemma OperationTurns(p: Pool, op: Operation, q: Pool) returns (picks: seq<nat>)
    requires Inv(p) && Performed(p, op, q)
    ensures Took(p, op, picks, q)
  {
    assert if Schedules(p, op) then Settled(Opened(p, op), q) else q == Opened(p, op) by {
      OpeningDue(p, op);
      if |Opening(p, op)| == 1 { PlayOne(p, Opening(p, op)[0]); }
    }
    picks := ScheduleTurns(p, op, Opened(p, op), q);
  }

  lemma ScheduleTurns(p: Pool, op: Operation, m: Pool, q: Pool) returns (picks: seq<nat>)
    requires Owed(p, op) && m == Opened(p, op) && if Schedules(p, op) then Settled(m, q) else q == m
    ensures Took(p, op, picks, q)
  {
    if Schedules(p, op) {
      picks :| Legal(m, picks) && q == Credits(m, picks) && Quiet(q);
    } else {
      picks := [];
    }
  }

  ghost function TurnEvents(picks: seq<nat>): seq<Event> {
    if |picks| == 0 then [] else TurnEvents(picks[..|picks| - 1]) + [Turn(picks[|picks| - 1])]
  }

  lemma {:induction false} TurnsPlay(p: Pool, picks: seq<nat>)
    requires Legal(p, picks)
    ensures AllDue(p, TurnEvents(picks)) && PlayAll(p, TurnEvents(picks)) == Credits(p, picks)
  {
    if |picks| > 0 {
      var init := picks[..|picks| - 1];
      TurnsPlay(p, init);
      assert TurnEvents(picks)[..|TurnEvents(picks)| - 1] == TurnEvents(init);
    }
  }

  /** So what events keep, operations keep. */
  lemma OperationKeeps(p: Pool, op: Operation, picks: seq<nat>, q: Pool)
    requires Inv(p) && Took(p, op, picks, q)
    ensures Inv(Opened(p, op)) && Legal(Opened(p, op), picks) && q == Credits(Opened(p, op), picks) && Inv(q)
  {
    OpeningDue(p, op);
    RunKeepsInv(p, Opening(p, op));
    assert Credits(Opened(p, op), []) == Opened(p, op);
    CreditsKeepInv(Opened(p, op), picks);
  }

  // ----- Round-robin over operations -----

  lemma PassByOne(p: Pool, es: seq<Event>, e: Event, g: nat)
    requires AllPassBy(p, es, g) && PassesBy(PlayAll(p, es), e, g)
    ensures AllPassBy(p, es + [e], g)
  {
    assert (es + [e])[..|es|] == es;
  }

  /** A turn of another group neither lists nor unlinks `g`. */
  lemma TurnPassesBy(p: Pool, h: nat, g: nat)
    requires Inv(p) && MayPick(p, h) && h != g
    ensures g in Credit(p, h).waiting <==> g in p.waiting
    ensures g in p.waiting ==> PassesBy(p, Turn(h), g)
  {
    CreditEffect(p, h);
  }

  lemma {:induction false} TurnsPassBy(p: Pool, picks: seq<nat>, g: nat)
    requires Inv(p) && Legal(p, picks) && g !in picks
    ensures g in Credits(p, picks).waiting <==> g in p.waiting
    ensures g in p.waiting ==> AllPassBy(p, TurnEvents(picks), g)
  {
    if |picks| > 0 {
      var init, h := picks[..|picks| - 1], picks[|picks| - 1];
      assert h in picks && forall k | k in init :: k in picks;
      TurnsPassBy(p, init, g);
      TurnsPlay(p, init);
      CreditsKeepInv(p, init);
      TurnPassesBy(Credits(p, init), h, g);
      if g in p.waiting { PassByOne(p, TurnEvents(init), Turn(h), g); }
    }
  }

  /** A group that waits before and after the opening of an operation waits all through it. */
  lemma OpeningPassesBy(p: Pool, op: Operation, g: nat)
    requires Inv(p) && Owed(p, op) && g in p.waiting && g in Opened(p, op).waiting
    ensures AllPassBy(p, Opening(p, op), g)
  {
    var es := Opening(p, op);
    OpeningDue(p, op);
    if |es| >= 1 {
      PlayOne(p, es[0]);
      assert AllPassBy(p, [], g) && [] + [es[0]] == [es[0]];
      if |es| == 1 {
        PassByOne(p, [], es[0], g);
      } else {
        PlayTwo(p, es[0], es[1]);
        EventKeepsInv(p, es[0]);
        PassByOne(p, [], es[0], g);
        PassByOne(p, [es[0]], es[1], g);
      }
    }
  }

  /** How many of the turns in an operation were paid from room below the reserve. */
  ghost function BaseTurnsIn(p: Pool, op: Operation, picks: seq<nat>): nat {
    BaseTurns(Opened(p, op), TurnEvents(picks))
  }

  /** An operation that gives `g` no turn moves it forward by the base turns it gives to others. */
  lemma OperationServes(p: Pool, op: Operation, picks: seq<nat>, q: Pool, g: nat)
    requires Inv(p) && Took(p, op, picks, q) && WaitsThrough(p, picks, q, g)
    ensures Inv(q) && BaseTurnsIn(p, op, picks) + Position(q, g) <= Position(p, g)
  {
    var m := Opened(p, op);
    OperationKeeps(p, op, picks, q);
    TurnsPassBy(m, picks, g);
    TurnsPlay(m, picks);
    OpeningPassesBy(p, op, g);
    ServedInTurn(p, Opening(p, op), g);
    ServedInTurn(m, TurnEvents(picks), g);
  }

  /** A group waits through an operation and gets no turn in it. */
  ghost predicate WaitsThrough(p: Pool, picks: seq<nat>, q: Pool, g: nat) {
    g in p.waiting && g !in picks && g in q.waiting
  }

  /** A run of public operations, with the turns the scheduler gives in each. */
  ghost predicate OperationRun(pools: seq<Pool>, ops: seq<Operation>, turns: seq<seq<nat>>) {
    && |pools| == |ops| + 1 && |turns| == |ops|
    && forall i | 0 <= i < |ops| :: Took(pools[i], ops[i], turns[i], pools[i + 1])
  }

  ghost function BaseTurnsOf(pools: seq<Pool>, ops: seq<Operation>, turns: seq<seq<nat>>, n: nat): nat
    requires n <= |pools| && n <= |ops| && n <= |turns|
  {
    if n == 0 then 0
    else BaseTurnsOf(pools, ops, turns, n - 1) + BaseTurnsIn(pools[n - 1], ops[n - 1], turns[n - 1])
  }

  /** Round-robin over public operations: while a group waits and gets no turn, through any reservations,
      cancellations, releases, registrations and unregistrations, at most as many base turns go to others
      as there were groups in front of it. */
  lemma {:induction false} ServedByOperations(pools: seq<Pool>, ops: seq<Operation>, turns: seq<seq<nat>>, n: nat,
                                              g: nat)
    requires OperationRun(pools, ops, turns) && n <= |ops| && Inv(pools[0]) && g in pools[0].waiting
    requires forall i | 0 <= i < n :: WaitsThrough(pools[i], turns[i], pools[i + 1], g)
    ensures Inv(pools[n]) && g in pools[n].waiting
    ensures BaseTurnsOf(pools, ops, turns, n) + Position(pools[n], g) <= Position(pools[0], g)
  {
    if n > 0 {
      ServedByOperations(pools, ops, turns, n - 1, g);
      assert WaitsThrough(pools[n - 1], turns[n - 1], pools[n], g);
      OperationServes(pools[n - 1], ops[n - 1], turns[n - 1], pools[n], g);
    }
  }
}
