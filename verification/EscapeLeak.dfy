/** A concrete run in which an escape is overwritten after an unsafe delivery reset: the pool stays closed to
    ordinary requests after its only client has returned everything. */
module EscapeLeak {
  import opened Words
  import opened Tables
  import opened BudgetSpec
  import opened WindowSpec
  import opened WindowRuns
  import opened WindowTheorems
  import opened Clients
  import opened Escapes

  const BIG := Request(Message(None, 0, false), 2000, None)
  const SMALL := Request(Message(None, 0, false), OVERHEAD, Some(1))

  function PoolWith(refs: nat, used: nat, escape: nat): Pool {
    Empty(1000, true, 125, OVERHEAD).(used := used, escape := escape, active := if used != 0 then 1 else 0,
    names := if refs != 0 then map["a" := 0] else map[],
    groups := [Group("a", refs, used, escape, 0, used != 0, [])])
  }

  function Held(sn: u64, size: nat): Slot { Slot(Message(None, sn, true), size, false) }

  /** The window: an overshooting message, then one limited to a single transmission that takes over
      its request, sent once, retired by a reset, and a second overshooting message. */
  function WindowAt(i: nat): Window {
    var w := Fresh(true, 0);
    if i <= 2 then w
    else if i <= 3 then
      w.(next := 2, slots := [Held(1, 2000)], bytes := 2000, escapeSeq := 1, escapeBytes := 2000, lastFlagged := 1)
    else if i <= 5 then WindowAt(3).(capacity := 4, ackEvery := 2, wakes := 1)
    else if i <= 8 then
      WindowAt(5).(next := 3, slots := [Held(1, 2000), Held(2, OVERHEAD)], bytes := 2256, lastFlagged := 2,
      cells := [Retained], tracked := [Entry(2, 0, 1, if i == 8 then 1 else 0)], deliver := i - 6)
    else if i <= 10 then
      WindowAt(8).(slots := [Held(1, 2000), Slot(Message(None, 2, false), 0, true)], bytes := 2000, lastFlagged := 0,
      cells := [Retired], deliver := 0, wakes := 2)
    else if i == 11 then
      WindowAt(10).(next := 4, slots := WindowAt(10).slots + [Held(3, 2000)], bytes := 4000, lastFlagged := 3,
      escapeSeq := 3)
    else
      WindowAt(11).(running := false, closed := true, bytes := 0, escapeBytes := 0, wakes := 3)
  }

  function PoolAt(i: nat): Pool {
    if i <= 2 then PoolWith(1, 0, 0)
    else if i <= 5 then PoolWith(1, 2000, 2000)
    else if i <= 8 then PoolWith(1, 2256, 2000)
    else if i <= 10 then PoolWith(1, 2000, 2000)
    else if i == 11 then PoolWith(1, 4000, 4000)
    else PoolWith(0, 0, 2000)
  }

  function OverAt(i: nat): set<u64> {
    if i <= 2 || i >= 12 then {} else if i <= 10 then {1} else {1, 3}
  }

  function CallsAt(i: nat): seq<Adder> {
    (if i <= 1 then [] else [Adder(0, BIG, None, if i == 2 then Trying else Gone)])
    + (if i <= 4 then [] else [Adder(0, SMALL, None, if i == 5 then Trying else Gone)])
    + (if i <= 9 then [] else [Adder(0, BIG, None, if i == 10 then Trying else Gone)])
  }

  function At(i: nat): System {
    if i == 0 then System(Empty(1000, true, 125, OVERHEAD), [], [])
    else System(PoolAt(i), [Client(WindowAt(i), 0, OverAt(i))], CallsAt(i))
  }

  function MoveAt(i: nat): Move {
    if i == 0 then Open("a", 0)
    else if i == 1 || i == 9 then Call(0, BIG)
    else if i == 4 then Call(0, SMALL)
    else if i == 2 then Attempt(0)
    else if i == 5 then Attempt(1)
    else if i == 10 then Attempt(2)
    else Operate(0, if i == 3 then Flow(4) else if i == 8 then Restart else if i == 11 then Shut else Deliver)
  }

  lemma FirstOvershoot()
    ensures Stepped(At(2), MoveAt(2), At(3))
  {
  }

  lemma Fitting()
    ensures Stepped(At(5), MoveAt(5), At(6))
  {
  }

  lemma SecondOvershoot()
    ensures Stepped(At(10), MoveAt(10), At(11))
  {
  }

  lemma NoRefund(p: Pool)
    ensures ReleasedAll(p, [], 0, p)
  {
    assert Chain([], 0, [p]);
  }

  lemma Flows()
    ensures Stepped(At(3), MoveAt(3), At(4))
  {
    NoRefund(PoolAt(3));
    assert StillOver(OverAt(3), WindowAt(4)) == OverAt(4);
  }

  lemma Delivers(i: nat)
    requires i == 6 || i == 7
    ensures Stepped(At(i), MoveAt(i), At(i + 1))
  {
    NoRefund(PoolAt(i));
    assert StillOver(OverAt(i), WindowAt(i + 1)) == OverAt(i + 1);
    var w := WindowAt(i);
    assert EntryAt(w.tracked, w.first, w.deliver) == if i == 7 then Some(0) else None;
    assert Next(w).w == WindowAt(i + 1) && Next(w).refunds == [];
  }

  lemma Resets()
    ensures Stepped(At(8), MoveAt(8), At(9))
  {
    var v := WindowAt(8).(deliver := 0);
    assert RetireSpent(v, 0) == v;
    assert RetireSpent(v, 1) == WindowAt(9);
    assert SpentRefunds(v, 1) == [Refund(OVERHEAD, 0)];
    assert ResetRefunds(WindowAt(8)) == [Refund(OVERHEAD, 0)];
    assert StillOver(OverAt(8), WindowAt(9)) == OverAt(9);
    Refunded(PoolAt(8), OVERHEAD, 0, PoolAt(9));
  }

  lemma Closes()
    ensures Stepped(At(11), MoveAt(11), At(12))
  {
    assert StillOver(OverAt(11), WindowAt(12)) == OverAt(12);
    Refunded(PoolAt(11), 4000, 2000, PoolWith(1, 0, 2000));
  }

  lemma Refunded(p: Pool, n: nat, escape: nat, q: Pool)
    requires p.fair && n > 0 && |p.groups| > 0 && p.waiting == [] && q == Release(p, n, escape, 0)
    ensures ReleasedAll(p, [Refund(n, escape)], 0, q)
  {
    var r := Release(p, n, escape, 0);
    assert Legal(r, []) && q == Credits(r, []);
    assert Settled(r, q);
    assert Chain([Refund(n, escape)], 0, [p, q]);
  }

  lemma EachStep(i: nat)
    requires i < 12
    ensures Stepped(At(i), MoveAt(i), At(i + 1))
  {
    if i == 2 { FirstOvershoot(); }
    else if i == 5 { Fitting(); }
    else if i == 10 { SecondOvershoot(); }
    else if i == 3 { Flows(); }
    else if i == 6 || i == 7 { Delivers(i); }
    else if i == 8 { Resets(); }
    else if i == 11 { Closes(); }
  }

  lemma UnsafeReset()
    ensures !SafeRestart(At(8).clients[0])
  {
    var w := WindowAt(8);
    assert w.tracked[0].sn == w.lastFlagged && ToRetire(w, w.tracked[0]);
    assert 1 in OverAt(8) && forall k | 0 <= k < |w.tracked| :: w.tracked[k].sn != 1;
  }

  lemma OneOverwrite(i: nat)
    requires i < 12
    ensures Overwrites(At(i), MoveAt(i)) <==> i == 10
  {
  }

  /** All of its steps are steps of the system, and only the last attempt overwrites an escape. At the end
      every client is closed and every call has returned, no byte is used, yet an escape remains, and no
      ordinary request ever fits. */
  lemma LostEscape(n: nat)
    ensures NewFair(1000, 0, 0) == Some(At(0).pool)
    ensures forall i | 0 <= i < 12 :: Stepped(At(i), MoveAt(i), At(i + 1))
    ensures forall i | 0 <= i < 12 :: Overwrites(At(i), MoveAt(i)) <==> i == 10
    ensures !SafeRestart(At(8).clients[0]) && MoveAt(8) == Operate(0, Restart)
    ensures At(11).clients[0].over == {1, 3} && !Ended(WindowAt(11), 1) && !Ended(WindowAt(11), 3)
    ensures At(12).clients[0].w.closed && forall a | a in At(12).adders :: a.stage == Gone
    ensures At(12).pool.used == 0 && At(12).pool.escape == 2000 && !Fits(At(12).pool, n, 0)
  {
    forall i | 0 <= i < 12 ensures Stepped(At(i), MoveAt(i), At(i + 1)) { EachStep(i); }
    forall i | 0 <= i < 12 ensures Overwrites(At(i), MoveAt(i)) <==> i == 10 { OneOverwrite(i); }
    UnsafeReset();
  }
}
