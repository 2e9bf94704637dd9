/** The same ledger for an ungrouped budget, which remembers no escapes: its use is what clients hold,
    and what did not overshoot when it came stays within the total. */
module UngroupedLedger {
  import opened Words
  import opened Tables
  import opened BudgetSpec
  import opened WindowSpec
  import WL = WindowLaws
  import opened WindowRuns
  import opened Clients
  import opened WindowLedger
  import opened Escapes
  import opened Overshooting

  /** Live bytes of a slot whose number is not in `over`. */
  ghost function SizeOutside(over: set<u64>): Slot -> nat {
    (s: Slot) => if s.retired || s.msg.seqNum in over then 0 else s.size
  }

  /** What the messages of a client weigh that did not overshoot. */
  ghost function OrdinaryBytes(c: Client): nat {
    if c.w.closed then 0 else Sum(c.w.slots, SizeOutside(c.over))
  }

  ghost function Ordinaries(): Client -> nat { (c: Client) => OrdinaryBytes(c) }

  ghost predicate ClientFine(c: Client) {
    Tidy(c) && c.w.accounting && c.w.escapeBytes == 0
  }

  ghost predicate Tally(s: System) {
    && !s.pool.fair
    && (forall c | 0 <= c < |s.clients| :: ClientFine(s.clients[c]))
    && s.pool.used == Sum(s.clients, Bytes())
    && (s.pool.total != 0 ==> Sum(s.clients, Ordinaries()) <= s.pool.total)
    && (forall i | 0 <= i < |s.adders| :: s.adders[i].client < |s.clients| && s.adders[i].r.size > 0)
  }

  // ----- One window -----

  /** A client holds its overshooting messages and its ordinary bytes, and nothing else. */
  lemma TwoParts(c: Client)
    requires ClientFine(c)
    ensures c.w.bytes == OrdinaryBytes(c) + OverBytes(c)
  {
    if !c.w.closed {
      var w := c.w;
      forall i | 0 <= i < |w.slots| ensures w.slots[i].retired ==> w.slots[i].size == 0 { assert WL.SlotOk(w, i); }
      SumPlus(w.slots, SizeOutside(c.over), SizeIn(c.over), SizeOf());
    }
  }

  lemma PartsTotal(cs: seq<Client>)
    requires forall i | 0 <= i < |cs| :: ClientFine(cs[i])
    ensures Sum(cs, Bytes()) == Sum(cs, Ordinaries()) + Sum(cs, Overs())
  {
    forall i | 0 <= i < |cs| ensures Bytes()(cs[i]) == Ordinaries()(cs[i]) + Overs()(cs[i]) { TwoParts(cs[i]); }
    SumPlus(cs, Ordinaries(), Overs(), Bytes());
  }

  // ----- Operations never add -----

  lemma SuffixShrinks(slots: seq<Slot>, k: nat, f: Slot -> nat)
    requires k <= |slots|
    ensures Sum(slots[k..], f) <= Sum(slots, f)
  {
    SumConcat(slots[..k], slots[k..], f);
    assert slots[..k] + slots[k..] == slots;
  }

  lemma RetireShrinks(w: Window, e: Entry, f: Slot -> nat)
    requires forall x: Slot | x.retired :: f(x) == 0
    ensures Sum(RetireIfSpent(w, e).slots, f) <= Sum(w.slots, f)
  {
    if ToRetire(w, e) {
      var i := Pos(w, e.sn);
      SumUpdate(w.slots, i, RetireIfSpent(w, e).slots[i], f);
    }
  }

  lemma {:induction false} SpentShrinks(w: Window, j: nat, f: Slot -> nat)
    requires j <= |w.tracked| && forall x: Slot | x.retired :: f(x) == 0
    ensures Sum(RetireSpent(w, j).slots, f) <= Sum(w.slots, f)
  {
    if j > 0 {
      SpentShrinks(w, j - 1, f);
      RetireShrinks(RetireSpent(w, j - 1), w.tracked[j - 1], f);
    }
  }

  lemma HeadShrinks(w: Window, f: Slot -> nat)
    requires |w.slots| <= MAX_SLOTS
    ensures Sum(ReleaseHead(w).slots, f) <= Sum(w.slots, f)
  {
    SuffixShrinks(w.slots, RetiredRun(w.slots), f);
  }

  lemma AckShrinks(w: Window, k: nat, f: Slot -> nat)
    requires k <= |w.slots| <= MAX_SLOTS
    ensures Sum(AckBy(w, k).slots, f) <= Sum(w.slots, f)
  {
    if k > 0 {
      SuffixShrinks(w.slots, k, f);
      HeadShrinks(Remove(w, k, true), f);
    }
  }

  /** Whatever live slots weigh, no operation but an admission makes them weigh more. */
  lemma OpShrinks(w: Window, op: Op, f: Slot -> nat)
    requires WL.Inv(w) && Enabled(w, op) && !op.Add? && forall x: Slot | x.retired :: f(x) == 0
    ensures Sum(Apply(w, op).slots, f) <= Sum(w.slots, f)
  {
    match op
    case Confirmed(sn, backing) => AckShrinks(w, AckCount(w, sn, backing), f);
    case Deliver => WL.NextExact(w);
    case Restart =>
      SpentShrinks(w.(deliver := 0), |w.tracked|, f);
      HeadShrinks(RetireSpent(w.(deliver := 0), |w.tracked|), f);
    case _ =>
  }

  /** The part of every client that is under the cap only shrinks. */
  lemma OperatedFine(c: Client, op: Op, x: Client)
    requires ClientFine(c) && Enabled(c.w, op) && !op.Add?
    requires x.w == Apply(c.w, op) && x.over == StillOver(c.over, x.w)
    ensures ClientFine(x) && OrdinaryBytes(x) <= OrdinaryBytes(c) && x.w.bytes <= c.w.bytes
  {
    ApplyKeeps(c.w, op);
    RefundsExact(c.w, op);
    RepaidLess(Refunds(c.w, op), BalanceOf(c.w), BalanceOf(x.w));
    ClosedKept(c.w, op);
    if !op.Shut? && !c.w.closed {
      OpShrinks(c.w, op, SizeOutside(c.over));
      OversGone(c.over, x);
    }
  }

  /** Messages that ended weigh nothing either way. */
  lemma OversGone(over: set<u64>, x: Client)
    requires WL.Core(x.w) && !x.w.closed && x.over == StillOver(over, x.w)
    ensures Sum(x.w.slots, SizeOutside(x.over)) == Sum(x.w.slots, SizeOutside(over))
  {
    forall i | 0 <= i < |x.w.slots| ensures SizeOutside(x.over)(x.w.slots[i]) == SizeOutside(over)(x.w.slots[i]) {
      assert WL.SlotOk(x.w, i);
      assert Pos(x.w, x.w.slots[i].msg.seqNum) == i;
    }
    SumSame(x.w.slots, SizeOutside(x.over), SizeOutside(over));
  }

  lemma {:induction false} RepaidLess(rs: seq<Refund>, before: Balance, after: Balance)
    requires Repaid(rs, before, after)
    ensures after.bytes <= before.bytes && after.escape <= before.escape
    decreases |rs|
  {
    if |rs| > 0 {
      var r := rs[|rs| - 1];
      RepaidLess(rs[..|rs| - 1], before, Balance(after.bytes + r.bytes, after.escape + r.escape));
    }
  }

  // ----- The pool -----

  /** Refunds of an ungrouped pool add up, and nobody is left unwoken. */
  lemma {:induction false} UngroupedRefunds(rs: seq<Refund>, g: nat, pools: seq<Pool>, before: Balance, after: Balance)
    requires Chain(rs, g, pools) && Repaid(rs, before, after)
    requires !pools[0].fair && before.bytes <= pools[0].used
    ensures var p, q := pools[0], pools[|rs|];
      && q == p.(used := q.used, wakes := q.wakes) && q.used == p.used - (before.bytes - after.bytes)
      && p.wakes <= q.wakes && (after.bytes < before.bytes ==> p.wakes < q.wakes) && after.bytes <= before.bytes
    decreases |rs|
  {
    var n := |rs|;
    if n > 0 {
      var r := rs[n - 1];
      var mid := Balance(after.bytes + r.bytes, after.escape + r.escape);
      assert Chain(rs[..n - 1], g, pools[..n]);
      UngroupedRefunds(rs[..n - 1], g, pools[..n], before, mid);
      assert Released(pools[n - 1], r.bytes, r.escape, g, pools[n]);
    }
  }

  lemma OperatedPool(s: System, c: nat, op: Op, m: Pool)
    requires Tally(s) && c < |s.clients| && !op.Add? && Enabled(s.clients[c].w, op)
    requires ReleasedAll(s.pool, Refunds(s.clients[c].w, op), s.clients[c].group, m)
    ensures m == s.pool.(used := m.used, wakes := m.wakes) && s.pool.wakes <= m.wakes
    ensures m.used == s.pool.used - (s.clients[c].w.bytes - Apply(s.clients[c].w, op).bytes)
    ensures Apply(s.clients[c].w, op).bytes < s.clients[c].w.bytes ==> s.pool.wakes < m.wakes
  {
    var w, g := s.clients[c].w, s.clients[c].group;
    assert ClientFine(s.clients[c]);
    var rs := Refunds(w, op);
    var pools :| Chain(rs, g, pools) && pools[0] == s.pool && pools[|rs|] == m;
    RefundsExact(w, op);
    SumAtLeast(s.clients, c, Bytes());
    UngroupedRefunds(rs, g, pools, BalanceOf(w), BalanceOf(Apply(w, op)));
  }

  lemma OperateTally(s: System, c: nat, op: Op, t: System)
    requires Tally(s) && Stepped(s, Operate(c, op), t)
    ensures Tally(t)
  {
    assert ClientFine(s.clients[c]);
    var x := t.clients[c];
    OperatedFine(s.clients[c], op, x);
    OperatedPool(s, c, op, t.pool);
    SumUpdate(s.clients, c, x, Bytes());
    SumUpdate(s.clients, c, x, Ordinaries());
    forall k | 0 <= k < |t.clients| ensures ClientFine(t.clients[k]) {
      if k != c { assert ClientFine(s.clients[k]); }
    }
  }

  // ----- Attempts -----

  lemma AdmittedFine(c: Client, r: Request, overshot: bool, q: Pool, x: Client)
    requires ClientFine(c) && r.size > 0 && !q.fair && Grows(c, r, overshot, q, x)
    ensures ClientFine(x) && x.w.bytes == c.w.bytes + r.size
    ensures OrdinaryBytes(x) == OrdinaryBytes(c) + if overshot then 0 else r.size
  {
    var w := c.w;
    GrowsTidy(c, r, overshot, q, x);
    SumAppend(w.slots, x.w.slots[|w.slots|], SizeOutside(x.over));
    forall i | 0 <= i < |w.slots| ensures w.slots[i].msg.seqNum != w.next { assert WL.SlotOk(w, i); }
    SumSame(w.slots, SizeOutside(x.over), SizeOutside(c.over));
  }

  /** One client changed, and the pool by as many bytes. */
  lemma TallyMoves(s: System, t: System, c: nat, bytes: int)
    requires Tally(s) && c < |s.clients| == |t.clients| && t.clients == s.clients[c := t.clients[c]]
    requires t.pool == s.pool.(used := t.pool.used) && t.pool.used == s.pool.used + bytes
    requires ClientFine(t.clients[c]) && t.clients[c].w.bytes == s.clients[c].w.bytes + bytes
    requires s.pool.total != 0 ==>
      Sum(s.clients, Ordinaries()) - OrdinaryBytes(s.clients[c]) + OrdinaryBytes(t.clients[c]) <= s.pool.total
    requires forall i | 0 <= i < |t.adders| ::
      t.adders[i].client < |s.clients| && t.adders[i].r.size > 0
    ensures Tally(t)
  {
    SumUpdate(s.clients, c, t.clients[c], Bytes());
    SumUpdate(s.clients, c, t.clients[c], Ordinaries());
    forall k | 0 <= k < |t.clients| ensures ClientFine(t.clients[k]) {
      if k != c { assert ClientFine(s.clients[k]); }
    }
  }

  /** What the pool answers, and what an admitted attempt does to its client. */
  lemma AdmittedTally(s: System, i: nat, t: System)
    requires Tally(s) && Stepped(s, Attempt(i), t) && t.adders[i].stage == Gone
    ensures var ci, n := s.adders[i].client, s.adders[i].r.size; var c, x := s.clients[ci], t.clients[ci];
      && ClientFine(x) && x.w.bytes == c.w.bytes + n && t.pool == s.pool.(used := s.pool.used + n)
      && (s.pool.total != 0 ==> Sum(s.clients, Ordinaries()) - OrdinaryBytes(c) + OrdinaryBytes(x) <= s.pool.total)
  {
    var a, c := s.adders[i], s.clients[s.adders[i].client];
    assert ClientFine(c);
    AttemptGrows(s, i, t);
    AdmittedFine(c, a.r, Overshoots(s, Attempt(i)), t.pool, t.clients[a.client]);
    PartsTotal(s.clients);
  }

  lemma AttemptTally(s: System, i: nat, t: System)
    requires Tally(s) && Stepped(s, Attempt(i), t)
    ensures Tally(t)
  {
    var ci := s.adders[i].client;
    assert ClientFine(s.clients[ci]);
    if t.adders[i].stage == Gone {
      AdmittedTally(s, i, t);
      TallyMoves(s, t, ci, s.adders[i].r.size);
    } else {
      AttemptGrows(s, i, t);
      TallyMoves(s, t, ci, 0);
    }
  }

  lemma OpenTally(s: System, key: string, maxBytes: nat, t: System)
    requires Tally(s) && Stepped(s, Open(key, maxBytes), t)
    ensures Tally(t)
  {
    var c := t.clients[|s.clients|];
    SumAppend(s.clients, c, Bytes());
    SumAppend(s.clients, c, Ordinaries());
    assert ClientFine(c);
  }

  // ----- Runs -----

  lemma StepTally(s: System, m: Move, t: System)
    requires Tally(s) && Stepped(s, m, t)
    ensures Tally(t)
  {
    match m
    case Open(key, maxBytes) => OpenTally(s, key, maxBytes, t);
    case Attempt(i) => AttemptTally(s, i, t);
    case Operate(c, op) => OperateTally(s, c, op, t);
    case _ =>
  }

  lemma {:induction false} TallyAlways(states: seq<System>, moves: seq<Move>, i: nat)
    requires Steps(states, moves) && Tally(states[0]) && i < |states|
    ensures Tally(states[i])
  {
    if i > 0 {
      TallyAlways(states, moves, i - 1);
      StepTally(states[i - 1], moves[i - 1], states[i]);
    }
  }

  /** In every run on an ungrouped budget: its use is what its clients hold, what did not overshoot stays
      within the total, overshooting messages are held and unretired, and closing everybody empties it. */
  lemma EveryUngroupedRun(states: seq<System>, moves: seq<Move>, i: nat)
    requires Steps(states, moves) && Begins(states[0]) && !states[0].pool.fair && i < |states|
    ensures var s := states[i];
      && s.pool.used == Sum(s.clients, Bytes()) == Sum(s.clients, Ordinaries()) + Sum(s.clients, Overs())
      && (s.pool.total != 0 ==> s.pool.used <= s.pool.total + Sum(s.clients, Overs()))
      && (forall c | 0 <= c < |s.clients| :: Carried(s.clients[c]))
      && ((forall c | 0 <= c < |s.clients| :: s.clients[c].w.closed) ==> s.pool.used == 0)
  {
    TallyAlways(states, moves, i);
    var s := states[i];
    PartsTotal(s.clients);
    forall c | 0 <= c < |s.clients| ensures Carried(s.clients[c]) { assert ClientFine(s.clients[c]); }
    if forall c | 0 <= c < |s.clients| :: s.clients[c].w.closed {
      forall c | 0 <= c < |s.clients| ensures s.clients[c].w.bytes == 0 { assert ClientFine(s.clients[c]); }
      SumZero(s.clients, Bytes());
    }
  }
}
