/** What the shared ledger means: where every charged byte is, how far past its total a pool can be,
    exactly when its escapes stay accounted for, and what is left when every client is closed. */
module LedgerTheorems {
  import opened Words
  import opened Tables
  import opened BudgetSpec
  import BudgetShape
  import BL = BudgetLaws
  import opened WindowSpec
  import WL = WindowLaws
  import opened Clients
  import opened Escapes
  import opened Overshooting
  import opened ClientLedger
  import opened LedgerRuns

  ghost function CreditNow(): Waiter -> nat { (w: Waiter) => if w.done then 0 else w.credit }

  ghost function BytesBelow(n: nat): Client -> nat { (c: Client) => if c.group < n then c.w.bytes else 0 }
  ghost function EscapesBelow(n: nat): Client -> nat { (c: Client) => if c.group < n then c.w.escapeBytes else 0 }
  ghost function CreditBelow(n: nat): Waiter -> nat {
    (w: Waiter) => if w.group < n && !w.done then w.credit else 0
  }

  // ----- Where the bytes are -----

  /** The bytes of the first `n` groups, client by client and waiter by waiter. */
  lemma {:induction false} GroupsBelow(s: System, n: nat)
    requires n <= |s.pool.groups| && forall g | 0 <= g < |s.pool.groups| :: Balanced(s, g)
    ensures Sum(s.pool.groups[..n], BL.UsedOf()) == Sum(s.clients, BytesBelow(n)) + Sum(s.pool.waiters, CreditBelow(n))
  {
    if n == 0 {
      SumZero(s.clients, BytesBelow(0));
      SumZero(s.pool.waiters, CreditBelow(0));
    } else {
      GroupsBelow(s, n - 1);
      assert s.pool.groups[..n] == s.pool.groups[..n - 1] + [s.pool.groups[n - 1]];
      SumAppend(s.pool.groups[..n - 1], s.pool.groups[n - 1], BL.UsedOf());
      SumPlus(s.clients, BytesBelow(n - 1), BytesIn(n - 1), BytesBelow(n));
      SumPlus(s.pool.waiters, CreditBelow(n - 1), BL.CreditIn(n - 1), CreditBelow(n));
      assert Balanced(s, n - 1);
    }
  }

  /** Every charged byte is in a client's window or credited to an unfinished waiter. */
  lemma BytesAccounted(s: System)
    requires Ledger(s)
    ensures s.pool.used == Sum(s.clients, Bytes()) + Sum(s.pool.waiters, CreditNow())
  {
    var n := |s.pool.groups|;
    assert s.pool.groups[..n] == s.pool.groups;
    GroupsBelow(s, n);
    forall i | 0 <= i < |s.clients| ensures BytesBelow(n)(s.clients[i]) == Bytes()(s.clients[i]) {
      assert ClientOk(s, s.clients[i]);
    }
    forall w | 0 <= w < |s.pool.waiters| ensures CreditBelow(n)(s.pool.waiters[w]) == CreditNow()(s.pool.waiters[w]) {
      assert BudgetShape.WaiterShape(s.pool, w);
    }
    SumSame(s.clients, BytesBelow(n), Bytes());
    SumSame(s.pool.waiters, CreditBelow(n), CreditNow());
  }

  /** Nothing is lost in the first `n` groups. */
  ghost predicate KnownBelow(s: System, n: nat)
    requires n <= |s.pool.groups|
  {
    forall g | 0 <= g < n :: Lost(s, g) == 0
  }

  lemma {:induction false} EscapesOfGroups(s: System, n: nat)
    requires n <= |s.pool.groups| && forall g | 0 <= g < |s.pool.groups| :: Balanced(s, g)
    ensures Sum(s.clients, EscapesBelow(n)) <= Sum(s.pool.groups[..n], BL.EscapeOf())
    ensures Sum(s.clients, EscapesBelow(n)) == Sum(s.pool.groups[..n], BL.EscapeOf()) <==> KnownBelow(s, n)
  {
    if n == 0 {
      SumZero(s.clients, EscapesBelow(0));
    } else {
      EscapesOfGroups(s, n - 1);
      assert s.pool.groups[..n] == s.pool.groups[..n - 1] + [s.pool.groups[n - 1]];
      SumAppend(s.pool.groups[..n - 1], s.pool.groups[n - 1], BL.EscapeOf());
      SumPlus(s.clients, EscapesBelow(n - 1), EscapesIn(n - 1), EscapesBelow(n));
      assert Balanced(s, n - 1);
      assert KnownBelow(s, n) <==> KnownBelow(s, n - 1) && Lost(s, n - 1) == 0;
    }
  }

  /** A pool has at least the escapes its clients will return, and exactly these if and only if none is lost. */
  lemma EscapesAccounted(s: System)
    requires Ledger(s)
    ensures Sum(s.clients, Escaped()) <= s.pool.escape
    ensures s.pool.escape == Sum(s.clients, Escaped()) <==> EscapesKnown(s)
  {
    var n := |s.pool.groups|;
    assert s.pool.groups[..n] == s.pool.groups;
    EscapesOfGroups(s, n);
    forall i | 0 <= i < |s.clients| ensures EscapesBelow(n)(s.clients[i]) == Escaped()(s.clients[i]) {
      assert ClientOk(s, s.clients[i]);
    }
    SumSame(s.clients, EscapesBelow(n), Escaped());
  }

  /** Then a group holds at least its escapes beside its waiters' credits, so used minus escape never wraps. */
  lemma KnownInside(s: System)
    requires Ledger(s) && EscapesKnown(s)
    ensures BL.EscapesInside(s.pool) && s.pool.escape <= s.pool.used && Net(s.pool) == s.pool.used - s.pool.escape
  {
    forall g | 0 <= g < |s.pool.groups|
      ensures s.pool.groups[g].escape + BL.Credit0(s.pool, g) <= s.pool.groups[g].used
    {
      assert Balanced(s, g) && Lost(s, g) == 0;
      forall c | 0 <= c < |s.clients| ensures EscapesIn(g)(s.clients[c]) <= BytesIn(g)(s.clients[c]) {
        assert ClientOk(s, s.clients[c]);
        WindowEscape(s.clients[c].w);
      }
      SumMonotone(s.clients, EscapesIn(g), BytesIn(g));
    }
    BL.EscapeWithinUsed(s.pool);
  }

  lemma WindowEscape(w: Window)
    requires WL.Inv(w)
    ensures w.escapeBytes <= w.bytes
  {
    if w.escapeBytes != 0 { SumAtLeast(w.slots, Pos(w, w.escapeSeq), SizeOf()); }
  }

  // ----- The soft cap -----

  /** A client's escape weighs what its overshooting message does, if that is the only one. */
  lemma OverWeighs(c: Client)
    requires Tidy(c) && c.over == EscapeOf(c.w)
    ensures OverBytes(c) == c.w.escapeBytes && |c.over| <= 1
  {
    var w := c.w;
    if w.escapeBytes == 0 {
      SumZero(w.slots, SizeIn(c.over));
    } else {
      assert w.escapeSeq in StillOver(c.over, w);
      var i := Pos(w, w.escapeSeq);
      forall j | 0 <= j < |w.slots| ensures w.slots[j].msg.seqNum == Plus(w.first, j) { assert WL.SlotOk(w, j); }
      SumSingle(w.slots, i, SizeIn(c.over));
    }
  }

  lemma OversWeigh(s: System)
    requires Ledger(s) && EscapesExact(s)
    ensures Sum(s.clients, Overs()) == Sum(s.clients, Escaped()) && OnceEach(s)
  {
    forall c | 0 <= c < |s.clients|
      ensures Overs()(s.clients[c]) == Escaped()(s.clients[c]) && |s.clients[c].over| <= 1
    {
      assert ClientOk(s, s.clients[c]);
      OverWeighs(s.clients[c]);
    }
    SumSame(s.clients, Overs(), Escaped());
  }

  /** The soft cap: a pool exceeds its total by at most its escapes; and while none is lost, by at most one
      message per client, which that client holds, unretired. */
  lemma SoftCap(s: System)
    requires Ledger(s)
    ensures s.pool.total != 0 ==> s.pool.used <= s.pool.total + s.pool.escape
    ensures EscapesKnown(s) && EscapesExact(s) ==>
      && s.pool.escape == Sum(s.clients, Overs()) && OnceEach(s)
      && (s.pool.total != 0 ==> s.pool.used <= s.pool.total + Sum(s.clients, Overs()))
    ensures forall c | 0 <= c < |s.clients| :: Carried(s.clients[c])
  {
    if EscapesKnown(s) && EscapesExact(s) {
      EscapesAccounted(s);
      OversWeigh(s);
    }
    forall c | 0 <= c < |s.clients| ensures Carried(s.clients[c]) { assert ClientOk(s, s.clients[c]); }
  }

  // ----- The end -----

  /** Every client is closed and every call has returned. */
  ghost predicate AllDone(s: System) {
    && (forall c | 0 <= c < |s.clients| :: s.clients[c].w.closed)
    && (forall i | 0 <= i < |s.adders| :: s.adders[i].stage == Gone)
  }

  /** Then the pool has no bytes, no active group and no names, and no escape exactly if none is lost. */
  lemma EmptyAfterClose(s: System)
    requires Ledger(s) && AllDone(s)
    ensures s.pool.used == 0 && s.pool.active == 0 && s.pool.names == map[]
    ensures s.pool.escape == 0 <==> EscapesKnown(s)
  {
    assert forall k | k in s.pool.names :: s.pool.groups[s.pool.names[k]].refs != 0;
    BytesAccounted(s);
    EscapesAccounted(s);
    forall i | 0 <= i < |s.clients| ensures s.clients[i].w.bytes == 0 && s.clients[i].w.escapeBytes == 0 {
      assert ClientOk(s, s.clients[i]);
    }
    forall w | 0 <= w < |s.pool.waiters| ensures s.pool.waiters[w].done { WaiterFinished(s, w); }
    SumZero(s.clients, Bytes());
    SumZero(s.clients, Escaped());
    SumZero(s.pool.waiters, CreditNow());
    forall g | 0 <= g < |s.pool.groups| ensures s.pool.groups[g].refs == 0 && !s.pool.groups[g].active {
      GroupIdle(s, g);
    }
    SumZero(s.pool.groups, BL.ActiveBit());
  }

  lemma WaiterFinished(s: System, w: nat)
    requires Ledger(s) && w < |s.pool.waiters| && forall i | 0 <= i < |s.adders| :: s.adders[i].stage == Gone
    ensures s.pool.waiters[w].done
  {
    forall i | 0 <= i < |s.adders| ensures s.adders[i].waiter != Some(w) { assert AdderOk(s, s.adders[i]); }
    assert !s.pool.waiters[w].done ==> Owned(s.adders, w);
  }

  lemma GroupIdle(s: System, g: nat)
    requires Ledger(s) && g < |s.pool.groups|
    requires forall c | 0 <= c < |s.clients| :: s.clients[c].w.closed
    requires forall w | 0 <= w < |s.pool.waiters| :: s.pool.waiters[w].done
    ensures s.pool.groups[g].refs == 0 && !s.pool.groups[g].active
  {
    assert Balanced(s, g);
    SumZero(s.clients, OpenIn(g));
    forall i | 0 <= i < |s.clients| ensures s.clients[i].w.bytes == 0 { assert ClientOk(s, s.clients[i]); }
    SumZero(s.clients, BytesIn(g));
    SumZero(s.pool.waiters, BL.CreditIn(g));
    assert BudgetShape.GroupShape(s.pool, g);
    SumZero(s.pool.waiters, BudgetShape.PendingIn(g));
  }

  /** A group nobody is registered with owns nothing and has no open client and no waiter; an escape left in
      it is a lost one. */
  lemma UnregisteredOwnsNothing(s: System, g: nat)
    requires Ledger(s) && g < |s.pool.groups| && s.pool.groups[g].refs == 0
    ensures s.pool.groups[g].used == 0 && s.pool.groups[g].pending == 0 && s.pool.groups[g].escape == Lost(s, g)
    ensures forall c | 0 <= c < |s.clients| && s.clients[c].group == g :: s.clients[c].w.closed
  {
    assert Balanced(s, g) && BL.Backed(s.pool, g);
    forall c | 0 <= c < |s.clients| && s.clients[c].group == g ensures s.clients[c].w.closed {
      SumAtLeast(s.clients, c, OpenIn(g));
    }
    forall i | 0 <= i < |s.clients| ensures BytesIn(g)(s.clients[i]) == 0 && EscapesIn(g)(s.clients[i]) == 0 {
      assert ClientOk(s, s.clients[i]);
    }
    SumZero(s.clients, BytesIn(g));
    SumZero(s.clients, EscapesIn(g));
    NoCredit(s, g);
  }

  lemma NoCredit(s: System, g: nat)
    requires Ledger(s) && g < |s.pool.groups| && s.pool.groups[g].pending == 0
    ensures BL.Credit0(s.pool, g) == 0
  {
    assert BudgetShape.GroupShape(s.pool, g);
    forall w | 0 <= w < |s.pool.waiters| ensures BL.CreditIn(g)(s.pool.waiters[w]) == 0 {
      SumAtLeast(s.pool.waiters, w, BudgetShape.PendingIn(g));
    }
    SumZero(s.pool.waiters, BL.CreditIn(g));
  }

  // ----- What callers rely on -----

  /** A call's waiter is always one the pool knows as its own, so `Admissible` is defined of every call. */
  lemma CallsKnown(s: System, i: nat)
    requires Ledger(s) && i < |s.adders|
    ensures s.adders[i].client < |s.clients|
    ensures Known(s.pool, s.clients[s.adders[i].client].group, s.adders[i].waiter)
  {
    assert AdderOk(s, s.adders[i]);
    assert ClientOk(s, s.clients[s.adders[i].client]);
  }

  /** The clamps of a release never bite, and no escape is taken twice: what a client returns is there to be
      taken back, in its group and in the pool. */
  lemma ClampsNeverBite(s: System, c: nat, n: nat)
    requires Ledger(s) && c < |s.clients| && n <= s.clients[c].w.bytes
    ensures var g := s.clients[c].group;
      && g < |s.pool.groups| && Min(Min(n, s.pool.groups[g].used), s.pool.used) == n
      && s.clients[c].w.escapeBytes <= s.pool.groups[g].escape <= s.pool.escape
  {
    var g := s.clients[c].group;
    assert ClientOk(s, s.clients[c]) && Balanced(s, g);
    SumAtLeast(s.clients, c, BytesIn(g));
    SumAtLeast(s.clients, c, EscapesIn(g));
    SumAtLeast(s.pool.groups, g, BL.UsedOf());
    SumAtLeast(s.pool.groups, g, BL.EscapeOf());
  }

  // ----- Every run -----

  /** Work conservation, the ledger, the cap and the empty pool at the end, in every state of every run that
      starts with a new fair budget. */
  lemma EveryFairRun(states: seq<System>, moves: seq<Move>, i: nat)
    requires Steps(states, moves) && Begins(states[0]) && states[0].pool.fair && i < |states|
    ensures var s := states[i];
      && Ledger(s) && Quiet(s.pool)
      && s.pool.used == Sum(s.clients, Bytes()) + Sum(s.pool.waiters, CreditNow())
      && (s.pool.total != 0 ==> s.pool.used <= s.pool.total + s.pool.escape)
      && Sum(s.clients, Escaped()) <= s.pool.escape
      && (AllDone(s) ==> s.pool.used == 0 && s.pool.active == 0 && s.pool.names == map[])
  {
    FairBegins(states[0]);
    LedgerAlways(states, moves, i);
    BytesAccounted(states[i]);
    EscapesAccounted(states[i]);
    SoftCap(states[i]);
    if AllDone(states[i]) { EmptyAfterClose(states[i]); }
  }

  /** No attempt before state `i` overshot while its client remembered an escape. */
  ghost predicate NoneOverwritten(states: seq<System>, moves: seq<Move>, i: nat)
    requires i <= |states| && i <= |moves|
  {
    forall j | 0 <= j < i :: !Overwrites(states[j], moves[j])
  }

  /** The exact condition: in every state of every such run the escapes of the pool are what its clients will
      return if and only if no attempt so far has overshot while its client remembered an escape. Until then
      the pool exceeds its total by at most one held message per client; and when all is over it is as empty
      as a new one exactly under that condition. */
  lemma EveryFairRunIff(states: seq<System>, moves: seq<Move>, i: nat)
    requires Steps(states, moves) && Begins(states[0]) && states[0].pool.fair && i < |states|
    ensures var s, none := states[i], NoneOverwritten(states, moves, i);
      && (s.pool.escape == Sum(s.clients, Escaped()) <==> none)
      && (none ==> && s.pool.escape == Sum(s.clients, Overs()) && OnceEach(s)
                   && (s.pool.total != 0 ==> s.pool.used <= s.pool.total + Sum(s.clients, Overs())))
      && (AllDone(s) ==> (s.pool.escape == 0 <==> none))
  {
    var s := states[i];
    FairBegins(states[0]);
    LedgerAlways(states, moves, i);
    EscapesIff(states, moves, i);
    EscapesAccounted(s);
    if NoneOverwritten(states, moves, i) {
      NoneIsSingle(states, moves, i);
      ExactAlways(states, moves, i);
      SoftCap(s);
    }
    if AllDone(s) { EmptyAfterClose(s); }
  }

  lemma NoneIsSingle(states: seq<System>, moves: seq<Move>, i: nat)
    requires i <= |states| && i <= |moves| && NoneOverwritten(states, moves, i)
    ensures forall j | 0 <= j < i :: Single(states[j], moves[j])
  {
  }

  /** On a fair budget a client overshoots twice exactly when it overwrites: the first such move of a run is
      both. */
  lemma OvershootsOnceIff(states: seq<System>, moves: seq<Move>, i: nat)
    requires Steps(states, moves) && Begins(states[0]) && states[0].pool.fair && i < |states|
    ensures NoneOverwritten(states, moves, i) <==> forall j | 0 <= j < i :: !Second(states[j], moves[j])
  {
    if NoneOverwritten(states, moves, i) {
      NoneIsSingle(states, moves, i);
      forall j | 0 <= j < i ensures !Second(states[j], moves[j]) { ExactAlways(states, moves, j); }
    }
    if forall j | 0 <= j < i :: !Second(states[j], moves[j]) {
      forall j | 0 <= j < i ensures !Overwrites(states[j], moves[j]) { ExactAlways(states, moves, j); }
    }
  }
}
