/** Every step of every client keeps the shared ledger, and what follows from it for whole runs. */
module LedgerRuns {
  import opened Words
  import opened Tables
  import opened BudgetSpec
  import BudgetShape
  import BL = BudgetLaws
  import BT = BudgetTheorems
  import opened BudgetEffects
  import opened WindowSpec
  import WL = WindowLaws
  import opened WindowRuns
  import opened Clients
  import opened WindowLedger
  import opened Escapes
  import opened Overshooting
  import opened ClientLedger

  // ----- Operations on a window -----

  /** No call changed, and the pool kept every waiter. */
  lemma AllCallsStay(s: System, t: System, g: nat, bytes: int, escape: int)
    requires t.adders == s.adders && |t.pool.waiters| == |s.pool.waiters|
    requires |t.clients| == |s.clients| && forall c | 0 <= c < |s.clients| :: t.clients[c].group == s.clients[c].group
    requires Moved(s.pool, t.pool, g, bytes, escape, None) && WaitersOwned(s)
    requires forall j | 0 <= j < |s.adders| :: AdderOk(s, s.adders[j])
    ensures WaitersOwned(t) && forall j | 0 <= j < |t.adders| :: AdderOk(t, t.adders[j])
  {
    forall j | 0 <= j < |t.adders| ensures AdderOk(t, t.adders[j]) {
      var a := s.adders[j];
      assert AdderOk(s, a);
      if a.waiter.Some? { assert SameWaiter(s.pool, t.pool, a.waiter.value); }
    }
    forall w | 0 <= w < |t.pool.waiters| && !t.pool.waiters[w].done ensures Owned(t.adders, w) {
      assert SameWaiter(s.pool, t.pool, w);
    }
  }

  /** The pool after the refunds of an operation. */
  lemma RefundedPool(s: System, c: nat, op: Op, m: Pool, bytes: int, escape: int)
    requires Ledger(s) && c < |s.clients| && !op.Add? && Enabled(s.clients[c].w, op)
    requires ReleasedAll(s.pool, Refunds(s.clients[c].w, op), s.clients[c].group, m)
    requires bytes == Apply(s.clients[c].w, op).bytes - s.clients[c].w.bytes
    requires escape == Apply(s.clients[c].w, op).escapeBytes - s.clients[c].w.escapeBytes
    ensures BL.Inv(m) && Quiet(m) && |m.waiters| == |s.pool.waiters|
    ensures Moved(s.pool, m, s.clients[c].group, bytes, escape, None)
  {
    var w, g := s.clients[c].w, s.clients[c].group;
    assert ClientOk(s, s.clients[c]);
    var rs := Refunds(w, op);
    var pools :| Chain(rs, g, pools) && pools[0] == s.pool && pools[|rs|] == m;
    RefundsExact(w, op);
    ClientCovered(s, c);
    var bs := Balances(rs, BalanceOf(w), BalanceOf(Apply(w, op)));
    RefundsMove(rs, g, pools, bs, |rs|, bytes, escape);
  }

  /** An unregistered client leaves the books of everybody else alone. */
  lemma BooksClose(s: System, m: Pool, t: System, c: nat, g: nat, bytes: int, escape: int)
    requires c < |s.clients| == |t.clients| && t.clients == s.clients[c := t.clients[c]]
    requires g == s.clients[c].group == t.clients[c].group && !s.clients[c].w.closed && t.clients[c].w.closed
    requires t.clients[c].w.bytes == s.clients[c].w.bytes + bytes
    requires t.clients[c].w.escapeBytes == s.clients[c].w.escapeBytes + escape
    requires Moved(s.pool, m, g, bytes, escape, None) && g < |m.groups| && m.groups[g].refs > 0 && t.pool == Unref(m, g)
    requires forall k | 0 <= k < |s.pool.groups| :: Balanced(s, k)
    ensures Loses(s, t, g, 0) && forall k | 0 <= k < |t.pool.groups| :: Balanced(t, k)
  {
    forall k | 0 <= k < |t.pool.groups| ensures Balanced(t, k) && Lost(t, k) == Lost(s, k) {
      assert Balanced(s, k) && GainsIn(s.pool, m, k, g, bytes, escape);
      SumUpdate(s.clients, c, t.clients[c], BytesIn(k));
      SumUpdate(s.clients, c, t.clients[c], EscapesIn(k));
      SumUpdate(s.clients, c, t.clients[c], OpenIn(k));
    }
  }

  /** The books after an operation whose refunds led to pool `m`. */
  lemma OperatedBooks(s: System, m: Pool, t: System, c: nat, g: nat, bytes: int, escape: int)
    requires Ledger(s) && BL.Inv(m) && Quiet(m) && Moved(s.pool, m, g, bytes, escape, None)
    requires c < |s.clients| == |t.clients| && t.clients == s.clients[c := t.clients[c]]
    requires g == s.clients[c].group == t.clients[c].group < |s.pool.groups|
    requires t.clients[c].w.bytes == s.clients[c].w.bytes + bytes
    requires t.clients[c].w.escapeBytes == s.clients[c].w.escapeBytes + escape
    requires s.clients[c].w.closed ==> t.clients[c].w.closed
    requires t.pool == if t.clients[c].w.closed != s.clients[c].w.closed then Unref(m, g) else m
    ensures BL.Inv(t.pool) && Quiet(t.pool) && Loses(s, t, g, 0)
    ensures forall k | 0 <= k < |t.pool.groups| :: Balanced(t, k)
  {
    if t.clients[c].w.closed != s.clients[c].w.closed {
      OpenMember(s, c);
      assert GainsIn(s.pool, m, g, g, bytes, escape);
      BooksClose(s, m, t, c, g, bytes, escape);
      BT.UnregisteredKeeps(m, g);
    } else {
      BooksMove(s, t, c, g, bytes, escape, escape, None);
    }
  }

  /** The client itself after an operation: its escape is still one of its overshooting messages. */
  lemma OperatedClient(s: System, c: nat, op: Op, t: System)
    requires Ledger(s) && c < |s.clients| == |t.clients| && !op.Add? && Enabled(s.clients[c].w, op)
    requires t.clients[c].w == Apply(s.clients[c].w, op)
    requires t.clients[c].group == s.clients[c].group && t.clients[c].over == StillOver(s.clients[c].over, t.clients[c].w)
    requires |t.pool.groups| == |s.pool.groups|
    ensures ClientOk(t, t.clients[c])
  {
    assert ClientOk(s, s.clients[c]);
    ApplyKeeps(s.clients[c].w, op);
    ClosedKept(s.clients[c].w, op);
    EscapeKept(s.clients[c].w, op);
  }

  lemma OperatedCalls(s: System, m: Pool, t: System, g: nat, bytes: int, escape: int)
    requires t.adders == s.adders && t.pool.waiters == m.waiters && |m.waiters| == |s.pool.waiters|
    requires |t.clients| == |s.clients| && forall c | 0 <= c < |s.clients| :: t.clients[c].group == s.clients[c].group
    requires Moved(s.pool, m, g, bytes, escape, None) && WaitersOwned(s)
    requires forall j | 0 <= j < |s.adders| :: AdderOk(s, s.adders[j])
    ensures WaitersOwned(t) && forall j | 0 <= j < |t.adders| :: AdderOk(t, t.adders[j])
  {
    var u := t.(pool := m);
    AllCallsStay(s, u, g, bytes, escape);
    SameWaiters(u, t);
  }

  lemma SameWaiters(s: System, t: System)
    requires t.adders == s.adders && |s.clients| <= |t.clients| && t.pool.waiters == s.pool.waiters
    requires forall c | 0 <= c < |s.clients| :: t.clients[c].group == s.clients[c].group
    requires WaitersOwned(s) && forall j | 0 <= j < |s.adders| :: AdderOk(s, s.adders[j])
    ensures WaitersOwned(t) && forall j | 0 <= j < |t.adders| :: AdderOk(t, t.adders[j])
  {
    forall j | 0 <= j < |t.adders| ensures AdderOk(t, t.adders[j]) { assert AdderOk(s, s.adders[j]); }
  }

  lemma OperatedPool(s: System, c: nat, op: Op, m: Pool, t: System)
    requires Ledger(s) && Stepped(s, Operate(c, op), t)
    requires ReleasedAll(s.pool, Refunds(s.clients[c].w, op), s.clients[c].group, m)
    requires var w, g := s.clients[c].w, s.clients[c].group;
      t.pool == if op.Shut? && s.pool.fair && !w.closed && g < |m.groups| then Unref(m, g) else m
    ensures BL.Inv(t.pool) && Quiet(t.pool) && Loses(s, t, s.clients[c].group, 0)
    ensures forall k | 0 <= k < |t.pool.groups| :: Balanced(t, k)
    ensures WaitersOwned(t) && forall j | 0 <= j < |t.adders| :: AdderOk(t, t.adders[j])
    ensures |t.pool.groups| == |s.pool.groups|
  {
    var w, g := s.clients[c].w, s.clients[c].group;
    assert ClientOk(s, s.clients[c]);
    var x := Apply(w, op);
    var bytes, escape := x.bytes - w.bytes, x.escapeBytes - w.escapeBytes;
    RefundedPool(s, c, op, m, bytes, escape);
    ClosedKept(w, op);
    OperatedBooks(s, m, t, c, g, bytes, escape);
    OperatedCalls(s, m, t, g, bytes, escape);
  }

  lemma OperateKeeps(s: System, c: nat, op: Op, t: System)
    requires Ledger(s) && Stepped(s, Operate(c, op), t)
    ensures Ledger(t) && Loses(s, t, s.clients[c].group, 0)
  {
    var w, g := s.clients[c].w, s.clients[c].group;
    var m :| ReleasedAll(s.pool, Refunds(w, op), g, m)
             && t.pool == if op.Shut? && s.pool.fair && !w.closed && g < |m.groups| then Unref(m, g) else m;
    OperatedPool(s, c, op, m, t);
    OperatedClient(s, c, op, t);
    OtherClients(s, t, c);
  }

  // ----- Clients come, calls come and go -----

  lemma OpenBooks(s: System, t: System, g: nat, c: Client, k: nat)
    requires Ledger(s) && t.clients == s.clients + [c] && c.group == g && !c.w.closed
    requires c.w.bytes == 0 && c.w.escapeBytes == 0
    requires t.pool.waiters == s.pool.waiters && k < |t.pool.groups|
    requires |t.pool.groups| == if g < |s.pool.groups| then |s.pool.groups| else |s.pool.groups| + 1
    requires g < |t.pool.groups|
    requires t.pool.groups[g] == if g < |s.pool.groups| then s.pool.groups[g].(refs := s.pool.groups[g].refs + 1)
                                 else Group(t.pool.groups[g].key, 1, 0, 0, 0, false, [])
    requires k != g ==> k < |s.pool.groups| && t.pool.groups[k] == s.pool.groups[k]
    ensures Balanced(t, k) && Lost(t, k) == if k < |s.pool.groups| then Lost(s, k) else 0
  {
    SumAppend(s.clients, c, BytesIn(k));
    SumAppend(s.clients, c, EscapesIn(k));
    SumAppend(s.clients, c, OpenIn(k));
    if k < |s.pool.groups| {
      assert Balanced(s, k);
    } else {
      forall i | 0 <= i < |s.clients| ensures s.clients[i].group != k { assert ClientOk(s, s.clients[i]); }
      SumZero(s.clients, BytesIn(k));
      SumZero(s.clients, EscapesIn(k));
      SumZero(s.clients, OpenIn(k));
      forall w | 0 <= w < |s.pool.waiters| ensures s.pool.waiters[w].group != k {
        assert BudgetShape.WaiterShape(s.pool, w);
      }
      SumZero(s.pool.waiters, BL.CreditIn(k));
    }
  }

  lemma OpenedBooks(s: System, key: string, maxBytes: nat, t: System)
    requires Ledger(s) && Stepped(s, Open(key, maxBytes), t)
    ensures Loses(s, t, 0, 0) && forall k | 0 <= k < |t.pool.groups| :: Balanced(t, k)
    ensures t.clients[|s.clients|].group < |t.pool.groups|
  {
    var c := t.clients[|s.clients|];
    forall k | 0 <= k < |t.pool.groups|
      ensures Balanced(t, k) && Lost(t, k) == if k < |s.pool.groups| then Lost(s, k) else 0
    {
      OpenBooks(s, t, c.group, c, k);
    }
  }

  lemma OpenKeeps(s: System, key: string, maxBytes: nat, t: System)
    requires Ledger(s) && Stepped(s, Open(key, maxBytes), t)
    ensures Ledger(t) && Loses(s, t, 0, 0)
  {
    BT.RegisteredKeeps(s.pool, key);
    OpenedBooks(s, key, maxBytes, t);
    assert WL.Inv(t.clients[|s.clients|].w);
    forall i | 0 <= i < |t.clients| ensures ClientOk(t, t.clients[i]) {
      if i < |s.clients| { assert ClientOk(s, s.clients[i]); }
    }
    SameWaiters(s, t);
  }

  lemma CallKeeps(s: System, c: nat, r: Request, t: System)
    requires Ledger(s) && Stepped(s, Call(c, r), t)
    ensures Ledger(t) && Loses(s, t, 0, 0)
  {
    forall w | 0 <= w < |t.pool.waiters| && !t.pool.waiters[w].done ensures Owned(t.adders, w) {
      assert Owned(s.adders, w);
      var j :| 0 <= j < |s.adders| && s.adders[j].waiter == Some(w);
      assert t.adders[j].waiter == Some(w);
    }
    forall g | 0 <= g < |t.pool.groups| ensures Balanced(t, g) && Lost(t, g) == Lost(s, g) { assert Balanced(s, g); }
    forall i | 0 <= i < |t.clients| ensures ClientOk(t, t.clients[i]) { assert ClientOk(s, s.clients[i]); }
    forall j | 0 <= j < |t.adders| ensures AdderOk(t, t.adders[j]) {
      if j < |s.adders| { assert AdderOk(s, s.adders[j]); }
    }
  }

  // ----- Runs -----

  /** The group in which a move can lose an escape. */
  ghost function LosesIn(s: System, m: Move): nat {
    if Overwrites(s, m) then s.clients[s.adders[m.adder].client].group else 0
  }

  lemma NothingLost(s: System, t: System, g: nat, h: nat)
    requires Loses(s, t, g, 0)
    ensures Loses(s, t, h, 0)
  {
  }

  /** Every step of every client keeps the ledger, and loses exactly the escape it overwrites. */
  lemma StepKeeps(s: System, m: Move, t: System)
    requires Ledger(s) && Stepped(s, m, t)
    ensures Ledger(t) && Loses(s, t, LosesIn(s, m), Overwritten(s, m))
  {
    match m
    case Open(key, maxBytes) => OpenKeeps(s, key, maxBytes, t);
    case Call(c, r) => CallKeeps(s, c, r, t);
    case Attempt(i) =>
      AttemptKeeps(s, i, t);
      if !Overwrites(s, m) { NothingLost(s, t, s.clients[s.adders[i].client].group, 0); }
    case GiveUp(i) =>
      assert AdderOk(s, s.adders[i]);
      DropKeeps(s, i, t, Gone);
      NothingLost(s, t, s.clients[s.adders[i].client].group, 0);
    case Operate(c, op) =>
      OperateKeeps(s, c, op, t);
      NothingLost(s, t, s.clients[c].group, 0);
  }

  lemma FairStart(total: u64, reserve: u64, minGroup: u64)
    ensures NewFair(total, reserve, minGroup).Some? <==>
      if total == 0 then reserve == 0 else reserve < total
    ensures var p := NewFair(total, reserve, minGroup);
      p.Some? ==>
        && Ledger(System(p.value, [], []))
        && p.value.total == total && p.value.reserve == (if reserve == 0 then total / 8 else reserve)
        && p.value.minGroup == (if minGroup == 0 then 256 else minGroup)
  {
  }

  lemma FairBegins(s: System)
    requires Begins(s) && s.pool.fair
    ensures Ledger(s) && EscapesKnown(s)
  {
    var total, reserve, minGroup :| NewFair(total, reserve, minGroup) == Some(s.pool);
    FairStart(total, reserve, minGroup);
  }

  /** Conservation over every run of every number of clients: the ledger holds in every state. */
  lemma {:induction false} LedgerAlways(states: seq<System>, moves: seq<Move>, i: nat)
    requires Steps(states, moves) && Ledger(states[0]) && i < |states|
    ensures Ledger(states[i])
  {
    if i > 0 {
      LedgerAlways(states, moves, i - 1);
      StepKeeps(states[i - 1], moves[i - 1], states[i]);
    }
  }

  // ----- The escape column -----

  /** Every escape of the pool is one that a client will return. */
  ghost predicate EscapesKnown(s: System) {
    forall g | 0 <= g < |s.pool.groups| :: Lost(s, g) == 0
  }

  lemma KnownIff(s: System, t: System, g: nat, n: nat)
    requires Loses(s, t, g, n) && (n > 0 ==> g < |s.pool.groups|)
    requires forall k | 0 <= k < |s.pool.groups| :: Balanced(s, k)
    ensures EscapesKnown(t) <==> EscapesKnown(s) && n == 0
  {
    if n > 0 {
      assert Balanced(s, g) && Lost(t, g) > 0;
    } else {
      forall k | 0 <= k < |s.pool.groups| ensures Lost(t, k) == Lost(s, k) { }
    }
  }

  /** A step keeps the escape column exact unless it overwrites an escape, and nothing repairs it. */
  lemma StepEscapesIff(s: System, m: Move, t: System)
    requires Ledger(s) && Stepped(s, m, t)
    ensures EscapesKnown(t) <==> EscapesKnown(s) && !Overwrites(s, m)
  {
    StepKeeps(s, m, t);
    if Overwrites(s, m) { OverwrittenGroup(s, m); }
    KnownIff(s, t, LosesIn(s, m), Overwritten(s, m));
  }

  lemma OverwrittenGroup(s: System, m: Move)
    requires Ledger(s) && Overwrites(s, m)
    ensures LosesIn(s, m) < |s.pool.groups| && Overwritten(s, m) > 0
  {
    assert ClientOk(s, s.clients[s.adders[m.adder].client]);
  }

  /** In every run: the pool's escapes are those its clients will return exactly if no attempt so far has
      overshot while its client remembered an escape. */
  lemma EscapesIff(states: seq<System>, moves: seq<Move>, i: nat)
    requires Steps(states, moves) && Ledger(states[0]) && EscapesKnown(states[0]) && i < |states|
    ensures EscapesKnown(states[i]) <==> forall j | 0 <= j < i :: !Overwrites(states[j], moves[j])
  {
    var known := seq(|states|, j requires 0 <= j < |states| => EscapesKnown(states[j]));
    var lost := seq(|moves|, j requires 0 <= j < |moves| => Overwrites(states[j], moves[j]));
    forall j | 0 <= j < |moves| ensures known[j + 1] == (known[j] && !lost[j]) {
      LedgerAlways(states, moves, j);
      StepEscapesIff(states[j], moves[j], states[j + 1]);
    }
    HoldsUntil(known, lost, i);
    assert forall j | 0 <= j < i :: lost[j] == Overwrites(states[j], moves[j]);
  }

  /** The escape of every client is its one overshooting message. */
  ghost predicate EscapesExact(s: System) {
    forall c | 0 <= c < |s.clients| :: s.clients[c].over == EscapeOf(s.clients[c].w)
  }

  lemma AttemptExact(s: System, i: nat, t: System)
    requires Stepped(s, Attempt(i), t) && s.adders[i].r.size > 0 && t.pool.fair && EscapesExact(s)
    ensures Second(s, Attempt(i)) <==> Overwrites(s, Attempt(i))
    ensures !Overwrites(s, Attempt(i)) ==> EscapesExact(t)
  {
    var ci := s.adders[i].client;
    AttemptGrows(s, i, t);
    if t.adders[i].stage == Gone {
      AdmittedEscape(s.clients[ci], s.adders[i].r, Overshoots(s, Attempt(i)), t.pool, t.clients[ci]);
    }
  }

  lemma StepExact(s: System, m: Move, t: System)
    requires Orderly(s) && Stepped(s, m, t) && EscapesExact(s) && t.pool.fair
    ensures Second(s, m) <==> Overwrites(s, m)
    ensures !Overwrites(s, m) ==> EscapesExact(t)
  {
    match m
    case Operate(c, op) => assert Tidy(s.clients[c]); EscapeKept(s.clients[c].w, op);
    case Attempt(i) => AttemptExact(s, i, t);
    case _ =>
  }

  /** The move is not both a second overshoot of its client and one that overwrites. */
  ghost predicate Single(s: System, m: Move) {
    !(Second(s, m) && Overwrites(s, m))
  }

  lemma {:induction false} ExactAlways(states: seq<System>, moves: seq<Move>, i: nat)
    requires Steps(states, moves) && Begins(states[0]) && states[0].pool.fair && i < |states|
    requires forall j | 0 <= j < i :: Single(states[j], moves[j])
    ensures EscapesExact(states[i])
    ensures i < |moves| ==> (Second(states[i], moves[i]) <==> Overwrites(states[i], moves[i]))
  {
    if i > 0 {
      ExactAlways(states, moves, i - 1);
      OneMoreExact(states, moves, i - 1);
    }
    if i < |moves| { OneMoreExact(states, moves, i); }
  }

  lemma OneMoreExact(states: seq<System>, moves: seq<Move>, i: nat)
    requires Steps(states, moves) && Begins(states[0]) && states[0].pool.fair && i < |moves| && EscapesExact(states[i])
    ensures Second(states[i], moves[i]) <==> Overwrites(states[i], moves[i])
    ensures !Overwrites(states[i], moves[i]) ==> EscapesExact(states[i + 1])
  {
    OrderlyAlways(states, moves, i);
    StaysFair(states, moves, i + 1);
    StepExact(states[i], moves[i], states[i + 1]);
  }

  lemma StaysFair(states: seq<System>, moves: seq<Move>, i: nat)
    requires Steps(states, moves) && Begins(states[0]) && states[0].pool.fair && i < |states|
    ensures states[i].pool.fair
  {
    FairBegins(states[0]);
    LedgerAlways(states, moves, i);
  }
}
