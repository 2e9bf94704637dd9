/** The byte ledger of a fair budget shared by many clients: in every reachable state what the pool has
    charged is what clients hold plus what waiters were credited, and nothing else; and its escape is what
    clients will return plus what they have lost. */
module ClientLedger {
  import opened Words
  import opened Tables
  import opened BudgetSpec
  import BL = BudgetLaws
  import BT = BudgetTheorems
  import opened BudgetEffects
  import opened WindowSpec
  import WL = WindowLaws
  import opened WindowRuns
  import opened Clients
  import opened WindowLedger
  import opened Escapes
  import opened Overshooting

  ghost function BytesIn(g: nat): Client -> nat { (c: Client) => if c.group == g then c.w.bytes else 0 }
  ghost function EscapesIn(g: nat): Client -> nat { (c: Client) => if c.group == g then c.w.escapeBytes else 0 }
  ghost function OpenIn(g: nat): Client -> nat { (c: Client) => if c.group == g && !c.w.closed then 1 else 0 }

  /** The books of group `g`: bytes held, registered clients, and no escape that its pool does not know. */
  ghost predicate Balanced(s: System, g: nat)
    requires g < |s.pool.groups|
  {
    && Held(s.pool, g) == Sum(s.clients, BytesIn(g))
    && Members(s.pool, g) == Sum(s.clients, OpenIn(g))
    && Lost(s, g) >= 0
  }

  /** The part of a group's escape that no client will return. */
  ghost function Lost(s: System, g: nat): int
    requires g < |s.pool.groups|
  {
    s.pool.groups[g].escape - Sum(s.clients, EscapesIn(g))
  }

  ghost predicate ClientOk(s: System, c: Client) {
    && Tidy(c) && c.w.accounting && c.group < |s.pool.groups| && EscapeOf(c.w) <= c.over
  }

  /** A call's waiter is its own pending request. */
  ghost predicate AdderOk(s: System, a: Adder) {
    && a.client < |s.clients| && a.r.size > 0
    && (a.stage == Gone ==> a.waiter.None?)
    && (a.waiter.Some? ==>
          var w := a.waiter.value;
          w < |s.pool.waiters| && !s.pool.waiters[w].done && s.pool.waiters[w].n == a.r.size
          && s.pool.waiters[w].group == s.clients[a.client].group)
  }

  /** Every unfinished waiter belongs to a call, and no two calls share one. */
  ghost predicate WaitersOwned(s: System) {
    && (forall w | 0 <= w < |s.pool.waiters| && !s.pool.waiters[w].done :: Owned(s.adders, w))
    && (forall i, j | 0 <= i < j < |s.adders| && s.adders[i].waiter.Some? :: s.adders[i].waiter != s.adders[j].waiter)
  }

  ghost predicate Owned(adders: seq<Adder>, w: nat) {
    exists i | 0 <= i < |adders| :: adders[i].waiter == Some(w)
  }

  ghost predicate Ledger(s: System) {
    && BL.Inv(s.pool) && Quiet(s.pool)
    && (forall c | 0 <= c < |s.clients| :: ClientOk(s, s.clients[c]))
    && (forall g | 0 <= g < |s.pool.groups| :: Balanced(s, g))
    && (forall i | 0 <= i < |s.adders| :: AdderOk(s, s.adders[i]))
    && WaitersOwned(s)
  }

  // ----- How the books move -----

  /** From `s` to `t` group `g` loses `n` bytes of escape, no other group any, and a new group none. */
  ghost predicate Loses(s: System, t: System, g: nat, n: int) {
    && |s.pool.groups| <= |t.pool.groups|
    && forall k | 0 <= k < |t.pool.groups| ::
         Lost(t, k) == (if k < |s.pool.groups| then Lost(s, k) else 0) + (if k == g then n else 0)
  }

  /** One client and the pool move together: of the pool's `escape` bytes the client remembers `own`. */
  lemma BooksMove(s: System, t: System, c: nat, g: nat, bytes: int, escape: int, own: int, gone: Option<nat>)
    requires c < |s.clients| == |t.clients| && t.clients == s.clients[c := t.clients[c]]
    requires g == s.clients[c].group == t.clients[c].group && t.clients[c].w.closed == s.clients[c].w.closed
    requires t.clients[c].w.bytes == s.clients[c].w.bytes + bytes
    requires t.clients[c].w.escapeBytes == s.clients[c].w.escapeBytes + own && own <= escape
    requires Moved(s.pool, t.pool, g, bytes, escape, gone)
    requires forall k | 0 <= k < |s.pool.groups| :: Balanced(s, k)
    ensures Loses(s, t, g, escape - own) && forall k | 0 <= k < |t.pool.groups| :: Balanced(t, k)
  {
    forall k | 0 <= k < |t.pool.groups|
      ensures Balanced(t, k) && Lost(t, k) == Lost(s, k) + if k == g then escape - own else 0
    {
      assert Balanced(s, k) && GainsIn(s.pool, t.pool, k, g, bytes, escape);
      SumUpdate(s.clients, c, t.clients[c], BytesIn(k));
      SumUpdate(s.clients, c, t.clients[c], EscapesIn(k));
      SumUpdate(s.clients, c, t.clients[c], OpenIn(k));
    }
  }

  /** The pool moves alone. */
  lemma BooksStay(s: System, t: System, g: nat, gone: Option<nat>)
    requires t.clients == s.clients && Moved(s.pool, t.pool, g, 0, 0, gone)
    requires forall k | 0 <= k < |s.pool.groups| :: Balanced(s, k)
    ensures Loses(s, t, g, 0) && forall k | 0 <= k < |t.pool.groups| :: Balanced(t, k)
  {
    forall k | 0 <= k < |t.pool.groups| ensures Balanced(t, k) && Lost(t, k) == Lost(s, k) {
      assert Balanced(s, k) && GainsIn(s.pool, t.pool, k, g, 0, 0);
    }
  }

  /** An open client keeps its group registered beyond the group's waiters. */
  lemma OpenMember(s: System, c: nat)
    requires Ledger(s) && c < |s.clients| && !s.clients[c].w.closed
    ensures s.clients[c].group < |s.pool.groups|
    ensures s.pool.groups[s.clients[c].group].pending < s.pool.groups[s.clients[c].group].refs
  {
    assert ClientOk(s, s.clients[c]);
    var g := s.clients[c].group;
    assert Balanced(s, g);
    SumAtLeast(s.clients, c, OpenIn(g));
  }

  /** Calls other than `i` keep their waiters, which the pool left alone. */
  lemma CallsStay(s: System, t: System, i: nat, g: nat, bytes: int, escape: int, gone: Option<nat>)
    requires i < |s.adders| == |t.adders| && t.adders == s.adders[i := t.adders[i]]
    requires |t.clients| == |s.clients| && forall c | 0 <= c < |s.clients| :: t.clients[c].group == s.clients[c].group
    requires Moved(s.pool, t.pool, g, bytes, escape, gone) && WaitersOwned(s)
    requires gone.Some? ==> s.adders[i].waiter == gone
    requires forall j | 0 <= j < |s.adders| :: AdderOk(s, s.adders[j])
    ensures forall j | 0 <= j < |s.adders| && j != i :: AdderOk(t, t.adders[j])
  {
    forall j | 0 <= j < |s.adders| && j != i ensures AdderOk(t, t.adders[j]) {
      var a := s.adders[j];
      assert AdderOk(s, a);
      if a.waiter.Some? {
        assert gone != a.waiter;
        assert SameWaiter(s.pool, t.pool, a.waiter.value);
      }
    }
  }

  // ----- Attempts -----

  /** The message a client remembers as its escape after an admission, and what it forgets for it. */
  lemma AdmittedEscape(c: Client, r: Request, overshot: bool, q: Pool, x: Client)
    requires q.fair && Grows(c, r, overshot, q, x) && r.size > 0
    ensures x.w.accounting == c.w.accounting && x.w.bytes == c.w.bytes + r.size
    ensures x.w.escapeBytes == if overshot then r.size else c.w.escapeBytes
    ensures EscapeOf(c.w) <= c.over ==> EscapeOf(x.w) <= x.over
    ensures c.over == EscapeOf(c.w) && !(overshot && c.w.escapeBytes != 0) ==> x.over == EscapeOf(x.w)
  {
  }

  /** After a step of the pool alone, clients are as before. */
  lemma ClientsStay(s: System, t: System)
    requires t.clients == s.clients && |t.pool.groups| == |s.pool.groups|
    requires forall c | 0 <= c < |s.clients| :: ClientOk(s, s.clients[c])
    ensures forall c | 0 <= c < |t.clients| :: ClientOk(t, t.clients[c])
  {
    forall c | 0 <= c < |t.clients| ensures ClientOk(t, t.clients[c]) { assert ClientOk(s, s.clients[c]); }
  }

  /** Waiters stay owned when one call drops its finished waiter, or keeps or gains its own. */
  lemma OwnersStay(s: System, t: System, i: nat, g: nat, bytes: int, escape: int, gone: Option<nat>)
    requires WaitersOwned(s) && i < |s.adders| == |t.adders| && t.adders == s.adders[i := t.adders[i]]
    requires Moved(s.pool, t.pool, g, bytes, escape, gone)
    requires forall j | 0 <= j < |s.adders| :: AdderOk(s, s.adders[j])
    requires gone == s.adders[i].waiter || t.adders[i].waiter == s.adders[i].waiter
             || (s.adders[i].waiter.None? && t.adders[i].waiter == Some(|s.pool.waiters|))
    requires t.adders[i].waiter.None? || t.adders[i].waiter == s.adders[i].waiter
             || (s.adders[i].waiter.None? && t.adders[i].waiter == Some(|s.pool.waiters|))
    requires forall w | |s.pool.waiters| <= w < |t.pool.waiters| :: t.adders[i].waiter == Some(w)
    ensures WaitersOwned(t)
  {
    forall w | 0 <= w < |t.pool.waiters| && !t.pool.waiters[w].done ensures Owned(t.adders, w) {
      if w < |s.pool.waiters| {
        if gone != Some(w) {
          assert SameWaiter(s.pool, t.pool, w);
          assert Owned(s.adders, w);
          var j :| 0 <= j < |s.adders| && s.adders[j].waiter == Some(w);
          assert t.adders[j].waiter == Some(w);
        }
      } else {
        assert t.adders[i].waiter == Some(w);
      }
    }
    forall j, k | 0 <= j < k < |t.adders| && t.adders[j].waiter.Some?
      ensures t.adders[j].waiter != t.adders[k].waiter
    {
      assert AdderOk(s, s.adders[j]) && AdderOk(s, s.adders[k]);
      assert s.adders[j].waiter.Some? ==> s.adders[j].waiter != s.adders[k].waiter;
    }
  }

  /** A waiter is given up: by a call that leaves, or that is refused before the pool is asked. */
  lemma DropKeeps(s: System, i: nat, t: System, stage: Stage)
    requires Ledger(s) && i < |s.adders|
    requires t == s.(pool := t.pool, adders := s.adders[i := s.adders[i].(waiter := None, stage := stage)])
    requires if s.adders[i].waiter.Some? then Cancelled(s.pool, s.adders[i].waiter.value, t.pool) else t.pool == s.pool
    ensures Ledger(t) && Loses(s, t, s.clients[s.adders[i].client].group, 0)
  {
    var a := s.adders[i];
    assert AdderOk(s, a);
    var g := s.clients[a.client].group;
    assert ClientOk(s, s.clients[a.client]);
    if a.waiter.Some? {
      BT.CancelledKeeps(s.pool, a.waiter.value, t.pool);
      CancelledEffect(s.pool, a.waiter.value, t.pool);
    } else {
      NothingMoved(s.pool, g);
    }
    BooksStay(s, t, g, a.waiter);
    CallsStay(s, t, i, g, 0, 0, a.waiter);
    OwnersStay(s, t, i, g, 0, 0, a.waiter);
    ClientsStay(s, t);
    assert AdderOk(t, t.adders[i]);
  }

  /** The pool's answer to attempt `i`. */
  ghost function Answer(s: System, i: nat): Reply
    requires i < |s.adders| && s.adders[i].client < |s.clients|
    requires Known(s.pool, s.clients[s.adders[i].client].group, s.adders[i].waiter)
  {
    var a, c := s.adders[i], s.clients[s.adders[i].client];
    Ask(s.pool, a.r.size, !HeldFlagged(c.w), c.group, a.waiter)
  }

  /** What an attempt that reaches the pool may assume and does there. */
  lemma AskedPool(s: System, i: nat, t: System)
    requires Ledger(s) && i < |s.adders| && s.adders[i].client < |s.clients| && AttemptStep(s, i, t)
    requires !RefusedLocally(s.clients[s.adders[i].client].w, s.adders[i].r.size)
    ensures BL.Inv(t.pool) && Quiet(t.pool) && t.pool.fair
    ensures var a, r := s.adders[i], Answer(s, i); var g, n := s.clients[a.client].group, a.r.size;
      && Moved(s.pool, t.pool, g, if r.ok then n else 0, if r.overshot then n else 0, Finished(r, a.waiter))
      && (r.ok || a.waiter.Some? ==> |t.pool.waiters| == |s.pool.waiters|)
      && (!r.ok && a.waiter.Some? ==> r.waiter == a.waiter)
      && (!r.ok && a.waiter.None? ==>
            r.waiter == Some(|s.pool.waiters|) && |t.pool.waiters| == |s.pool.waiters| + 1
            && t.pool.waiters[|s.pool.waiters|].n == n && t.pool.waiters[|s.pool.waiters|].group == g
            && !t.pool.waiters[|s.pool.waiters|].done)
  {
    var a, ci := s.adders[i], s.adders[i].client;
    var c := s.clients[ci];
    assert AdderOk(s, a) && ClientOk(s, c);
    OpenMember(s, ci);
    var n, force, g := a.r.size, !HeldFlagged(c.w), c.group;
    var r := Ask(s.pool, n, force, g, a.waiter);
    BT.ReservedKeeps(s.pool, n, force, g, a.waiter, t.pool, r);
    ReservedEffect(s.pool, n, force, g, a.waiter, t.pool, r);
  }

  lemma AskedClient(s: System, i: nat, t: System)
    requires Ledger(s) && Stepped(s, Attempt(i), t) && t.pool.fair && |t.pool.groups| == |s.pool.groups|
    requires !RefusedLocally(s.clients[s.adders[i].client].w, s.adders[i].r.size)
    ensures var ci, r := s.adders[i].client, Answer(s, i); var n := s.adders[i].r.size;
      && ClientOk(t, t.clients[ci]) && t.clients[ci].w.closed == s.clients[ci].w.closed
      && t.clients[ci].w.bytes == s.clients[ci].w.bytes + (if r.ok then n else 0)
      && t.clients[ci].w.escapeBytes == (if r.overshot then n else s.clients[ci].w.escapeBytes)
      && (r.overshot ==> r.ok)
  {
    var a, ci := s.adders[i], s.adders[i].client;
    var c, x, over := s.clients[ci], t.clients[ci], Overshoots(s, Attempt(i));
    assert AdderOk(s, a) && ClientOk(s, c);
    AttemptGrows(s, i, t);
    if Answer(s, i).ok {
      GrowsTidy(c, a.r, over, t.pool, x);
      AdmittedEscape(c, a.r, over, t.pool, x);
    }
  }

  /** The calls after attempt `i` was answered `r`. */
  lemma AskedCalls(s: System, i: nat, t: System, r: Reply, g: nat, bytes: int, escape: int)
    requires i < |s.adders| == |t.adders| && t.adders == s.adders[i := t.adders[i]]
    requires WaitersOwned(s) && forall j | 0 <= j < |s.adders| :: AdderOk(s, s.adders[j])
    requires |t.clients| == |s.clients| && forall c | 0 <= c < |s.clients| :: t.clients[c].group == s.clients[c].group
    requires s.adders[i].client < |s.clients| && g == s.clients[s.adders[i].client].group
    requires Moved(s.pool, t.pool, g, bytes, escape, Finished(r, s.adders[i].waiter))
    requires t.adders[i] == s.adders[i].(waiter := if r.ok then None else r.waiter, stage := t.adders[i].stage)
    requires (t.adders[i].stage == Gone) == r.ok
    requires r.ok || s.adders[i].waiter.Some? ==> |t.pool.waiters| == |s.pool.waiters|
    requires !r.ok && s.adders[i].waiter.Some? ==> r.waiter == s.adders[i].waiter
    requires var k := |s.pool.waiters|; !r.ok && s.adders[i].waiter.None? ==>
        r.waiter == Some(k) && |t.pool.waiters| == k + 1 && t.pool.waiters[k].n == s.adders[i].r.size
        && t.pool.waiters[k].group == g && !t.pool.waiters[k].done
    ensures WaitersOwned(t) && forall j | 0 <= j < |t.adders| :: AdderOk(t, t.adders[j])
  {
    var a, gone := s.adders[i], Finished(r, s.adders[i].waiter);
    assert AdderOk(s, a);
    CallsStay(s, t, i, g, bytes, escape, gone);
    OwnersStay(s, t, i, g, bytes, escape, gone);
    if a.waiter.Some? && !r.ok { assert SameWaiter(s.pool, t.pool, a.waiter.value); }
    assert AdderOk(t, t.adders[i]);
  }

  /** The escape an attempt overwrites. */
  ghost function Overwritten(s: System, m: Move): nat {
    if Overwrites(s, m) then s.clients[s.adders[m.adder].client].w.escapeBytes else 0
  }

  lemma AskedBooks(s: System, i: nat, t: System)
    requires Ledger(s) && Stepped(s, Attempt(i), t)
    requires !RefusedLocally(s.clients[s.adders[i].client].w, s.adders[i].r.size)
    ensures BL.Inv(t.pool) && Quiet(t.pool) && forall k | 0 <= k < |t.pool.groups| :: Balanced(t, k)
    ensures var c := s.clients[s.adders[i].client];
      Loses(s, t, c.group, if Answer(s, i).overshot then c.w.escapeBytes else 0)
    ensures forall c | 0 <= c < |t.clients| :: ClientOk(t, t.clients[c])
  {
    var a, ci, r := s.adders[i], s.adders[i].client, Answer(s, i);
    var n, g := a.r.size, s.clients[ci].group;
    AskedPool(s, i, t);
    AskedClient(s, i, t);
    var bytes, escape := if r.ok then n else 0, if r.overshot then n else 0;
    var own := t.clients[ci].w.escapeBytes - s.clients[ci].w.escapeBytes;
    BooksMove(s, t, ci, g, bytes, escape, own, Finished(r, a.waiter));
    OtherClients(s, t, ci);
  }

  lemma AskedWaiters(s: System, i: nat, t: System)
    requires Ledger(s) && Stepped(s, Attempt(i), t)
    requires !RefusedLocally(s.clients[s.adders[i].client].w, s.adders[i].r.size)
    ensures WaitersOwned(t) && forall j | 0 <= j < |t.adders| :: AdderOk(t, t.adders[j])
  {
    var a, r := s.adders[i], Answer(s, i);
    AskedPool(s, i, t);
    AskedCalls(s, i, t, r, s.clients[a.client].group, if r.ok then a.r.size else 0, if r.overshot then a.r.size else 0);
  }

  lemma AskedKeeps(s: System, i: nat, t: System)
    requires Ledger(s) && Stepped(s, Attempt(i), t)
    requires !RefusedLocally(s.clients[s.adders[i].client].w, s.adders[i].r.size)
    ensures Ledger(t) && Loses(s, t, s.clients[s.adders[i].client].group, Overwritten(s, Attempt(i)))
  {
    AskedBooks(s, i, t);
    AskedWaiters(s, i, t);
  }

  lemma OtherClients(s: System, t: System, ci: nat)
    requires ci < |s.clients| == |t.clients| && t.clients == s.clients[ci := t.clients[ci]]
    requires |t.pool.groups| == |s.pool.groups| && ClientOk(t, t.clients[ci])
    requires forall c | 0 <= c < |s.clients| :: ClientOk(s, s.clients[c])
    ensures forall c | 0 <= c < |t.clients| :: ClientOk(t, t.clients[c])
  {
    forall c | 0 <= c < |t.clients| ensures ClientOk(t, t.clients[c]) {
      if c != ci { assert ClientOk(s, s.clients[c]); }
    }
  }

  lemma AttemptKeeps(s: System, i: nat, t: System)
    requires Ledger(s) && Stepped(s, Attempt(i), t)
    ensures Ledger(t) && Loses(s, t, s.clients[s.adders[i].client].group, Overwritten(s, Attempt(i)))
  {
    var a := s.adders[i];
    if RefusedLocally(s.clients[a.client].w, a.r.size) {
      AttemptGrows(s, i, t);
      assert t.clients == s.clients;
      DropKeeps(s, i, t, t.adders[i].stage);
    } else {
      AskedKeeps(s, i, t);
    }
  }

  // ----- Operations on a window -----

  /** The pool can take back a balance from a client of group `g`. */
  ghost predicate Covers(p: Pool, g: nat, b: Balance) {
    && BL.Inv(p) && Quiet(p) && g < |p.groups| && b.escape <= b.bytes
    && (b.bytes > 0 ==>
          Members(p, g) >= 1 && b.escape <= p.groups[g].escape && b.bytes <= Held(p, g))
  }

  lemma OneRefund(p: Pool, r: Refund, g: nat, q: Pool, before: Balance, after: Balance, bytes: int, escape: int)
    requires Covers(p, g, before) && Released(p, r.bytes, r.escape, g, q)
    requires r.escape <= r.bytes && after.escape <= after.bytes
    requires before == Balance(after.bytes + r.bytes, after.escape + r.escape)
    requires bytes == 0 - r.bytes && escape == 0 - r.escape
    ensures Covers(q, g, after) && |q.waiters| == |p.waiters|
    ensures Moved(p, q, g, bytes, escape, None)
  {
    if r.bytes == 0 {
      NothingMoved(p, g);
    } else {
      BT.ReleasedKeeps(p, r.bytes, r.escape, g, q);
      ReleasedEffect(p, r.bytes, r.escape, g, q, bytes, escape);
      assert GainsIn(p, q, g, g, bytes, escape);
    }
  }

  lemma MovedAgain(p: Pool, q: Pool, r: Pool, g: nat, b1: int, e1: int, b2: int, e2: int, b: int, e: int)
    requires Moved(p, q, g, b1, e1, None) && Moved(q, r, g, b2, e2, None) && b == b1 + b2 && e == e1 + e2
    ensures Moved(p, r, g, b, e, None)
  {
    forall k | 0 <= k < |p.groups| ensures GainsIn(p, r, k, g, b, e) {
      assert GainsIn(p, q, k, g, b1, e1) && GainsIn(q, r, k, g, b2, e2);
    }
    forall w | 0 <= w < |p.waiters| ensures SameWaiter(p, r, w) {
      assert SameWaiter(p, q, w) && SameWaiter(q, r, w);
    }
  }

  lemma OneMoreRefund(p: Pool, m: Pool, r: Refund, g: nat, q: Pool, mid: Balance, after: Balance, b1: int, e1: int,
                      bytes: int, escape: int)
    requires Moved(p, m, g, b1, e1, None) && b1 == bytes + r.bytes && e1 == escape + r.escape
    requires Covers(m, g, mid) && Released(m, r.bytes, r.escape, g, q)
    requires r.escape <= r.bytes && after.escape <= after.bytes
    requires mid == Balance(after.bytes + r.bytes, after.escape + r.escape)
    ensures Covers(q, g, after) && |q.waiters| == |m.waiters| && Moved(p, q, g, bytes, escape, None)
  {
    var b2, e2 := 0 - r.bytes, 0 - r.escape;
    OneRefund(m, r, g, q, mid, after, b2, e2);
    MovedAgain(p, m, q, g, b1, e1, b2, e2, bytes, escape);
  }

  /** A series of refunds that a window owes moves the pool by exactly their total. */
  lemma {:induction false} RefundsMove(rs: seq<Refund>, g: nat, pools: seq<Pool>, bs: seq<Balance>, i: nat,
                                       bytes: int, escape: int)
    requires Chain(rs, g, pools) && i <= |rs| == |bs| - 1 && Covers(pools[0], g, bs[0])
    requires forall k | 0 <= k < |rs| :: Pays(rs[k], bs[k], bs[k + 1])
    requires bytes == bs[i].bytes - bs[0].bytes && escape == bs[i].escape - bs[0].escape
    ensures Covers(pools[i], g, bs[i]) && |pools[i].waiters| == |pools[0].waiters|
    ensures Moved(pools[0], pools[i], g, bytes, escape, None)
  {
    if i == 0 {
      NothingMoved(pools[0], g);
    } else {
      var r := rs[i - 1];
      assert Pays(r, bs[i - 1], bs[i]);
      var b1, e1 := bytes + r.bytes, escape + r.escape;
      RefundsMove(rs, g, pools, bs, i - 1, b1, e1);
      OneMoreRefund(pools[0], pools[i - 1], r, g, pools[i], bs[i - 1], bs[i], b1, e1, bytes, escape);
    }
  }

  lemma ClientCovered(s: System, c: nat)
    requires Ledger(s) && c < |s.clients|
    ensures Covers(s.pool, s.clients[c].group, BalanceOf(s.clients[c].w))
  {
    var x := s.clients[c];
    assert ClientOk(s, x) && Balanced(s, x.group);
    EscapeInside(x.w);
    if x.w.bytes > 0 {
      OpenMember(s, c);
      SumAtLeast(s.clients, c, EscapesIn(x.group));
      SumAtLeast(s.clients, c, BytesIn(x.group));
    }
  }
}
