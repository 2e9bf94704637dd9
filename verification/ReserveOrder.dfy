/** Round-robin inside the reserve. Next to the pool stands the ready list: the order in which groups within
    their share are served once there is no room below the reserve. */
module ReserveOrder {
  import opened Words
  import opened Tables
  import opened BudgetSpec
  import opened BudgetShape
  import opened BudgetLaws
  import opened BudgetTheorems
  import opened BudgetRuns

  /** The pool and its ready list; waiting groups that are not on it are in the heap. */
  datatype Desk = Desk(pool: Pool, ready: seq<nat>)

  /** A waiting group within its share. */
  predicate Within(p: Pool, g: nat) {
    g in p.waiting && g < |p.groups| && Need(p, g) <= Share(p, g)
  }

  ghost predicate DeskOk(d: Desk) {
    Inv(d.pool) && Distinct(d.ready) && forall g | g in d.ready :: g in d.pool.waiting
  }

  // ----- Turns -----

  /** One turn: who gets it, which groups joined the ready list for it, and how many at the front of the list
      had outgrown their share and left it. */
  datatype Pick = Pick(g: nat, added: seq<nat>, dropped: nat)

  /** The ready list when `k` was picked. A pick from room below the reserve does not look at it. */
  function Standing(d: Desk, k: Pick): seq<nat> {
    if Base(d.pool) != 0 || k.dropped > |d.ready + k.added| then d.ready else (d.ready + k.added)[k.dropped..]
  }

  /** Exactly the waiting groups that came within their share join the list, at its back and by need; the
      first `dropped` of it have outgrown their share. */
  ghost predicate Elects(d: Desk, added: seq<nat>, dropped: nat) {
    && Distinct(added) && (forall h :: h in added <==> Within(d.pool, h) && h !in d.ready)
    && (forall i, j | 0 <= i < j < |added| ::
          added[i] < |d.pool.groups| && added[j] < |d.pool.groups| && Need(d.pool, added[i]) <= Need(d.pool, added[j]))
    && dropped <= |d.ready + added| && forall i | 0 <= i < dropped :: !Within(d.pool, (d.ready + added)[i])
  }

  /** The pick the scheduler makes: the first in line while there is room below the reserve, and afterwards
      the first group of the ready list that is within its share. */
  ghost predicate Proper(d: Desk, k: Pick) {
    && MayPick(d.pool, k.g)
    && (Base(d.pool) == 0 ==>
          && Elects(d, k.added, k.dropped)
          && k.dropped < |d.ready + k.added| && (d.ready + k.added)[k.dropped] == k.g && Within(d.pool, k.g))
  }

  /** The list after group `g` changed: it is on it exactly within its share, in its old place or last. */
  function Rank(p: Pool, ready: seq<nat>, g: nat): seq<nat> {
    if !Within(p, g) then Without(ready, g) else if g in ready then ready else ready + [g]
  }

  /** The list after `g` got a turn: last on it, or off it. */
  function Back(p: Pool, ready: seq<nat>, g: nat): seq<nat> {
    if Within(p, g) then Without(ready, g) + [g] else Without(ready, g)
  }

  function Serve(d: Desk, k: Pick): Desk {
    if MayPick(d.pool, k.g) then Desk(Credit(d.pool, k.g), Back(Credit(d.pool, k.g), Standing(d, k), k.g)) else d
  }

  function Serves(d: Desk, ks: seq<Pick>): Desk {
    if |ks| == 0 then d else Serve(Serves(d, ks[..|ks| - 1]), ks[|ks| - 1])
  }

  ghost predicate AllProper(d: Desk, ks: seq<Pick>) {
    |ks| == 0 || (AllProper(d, ks[..|ks| - 1]) && Proper(Serves(d, ks[..|ks| - 1]), ks[|ks| - 1]))
  }

  /** The scheduler stops in a quiet pool; having looked for a ready group in vain it has emptied the list. */
  ghost predicate Rests(d: Desk, e: Desk) {
    && Quiet(d.pool) && e.pool == d.pool
    && (e.ready == d.ready || (e.ready == [] && forall g | g in d.pool.waiting :: !Within(d.pool, g)))
  }

  /** `e` is what the scheduler leaves behind when started on `d`, by way of turns `ks`. */
  ghost predicate Scheduled(d: Desk, ks: seq<Pick>, e: Desk) {
    AllProper(d, ks) && Rests(Serves(d, ks), e)
  }

  /** The turns of `ks` as the pool sees them. */
  function Turns(ks: seq<Pick>): seq<nat> {
    if |ks| == 0 then [] else Turns(ks[..|ks| - 1]) + [ks[|ks| - 1].g]
  }

  lemma {:induction false} TurnsLegal(d: Desk, ks: seq<Pick>)
    requires AllProper(d, ks)
    ensures Legal(d.pool, Turns(ks)) && Serves(d, ks).pool == Credits(d.pool, Turns(ks))
  {
    if |ks| > 0 {
      var init := ks[..|ks| - 1];
      TurnsLegal(d, init);
      assert Turns(ks)[..|Turns(ks)| - 1] == Turns(init);
    }
  }

  /** Scheduling is scheduling of the pool. */
  lemma ScheduledSettles(d: Desk, ks: seq<Pick>, e: Desk)
    requires Scheduled(d, ks, e)
    ensures Settled(d.pool, e.pool)
  {
    TurnsLegal(d, ks);
  }

  // ----- Positions -----

  ghost function Place(s: seq<nat>, g: nat): (i: nat)
    requires g in s
    ensures i < |s| && s[i] == g
  {
    var i :| 0 <= i < |s| && s[i] == g; i
  }

  lemma PlaceIs(s: seq<nat>, g: nat, i: nat)
    requires Distinct(s) && i < |s| && s[i] == g
    ensures Place(s, g) == i
  {
  }

  /** Unlinking another group, and appending any, keeps or improves a place; unlinking the first one gains one. */
  lemma PlaceAfter(s: seq<nat>, t: seq<nat>, h: nat, g: nat)
    requires Distinct(s) && g in s && g != h && (t == Without(s, h) || t == Without(s, h) + [h])
    ensures Distinct(t) && g in t && Place(t, g) <= Place(s, g)
    ensures |s| > 0 && s[0] == h ==> Place(t, g) == Place(s, g) - 1
  {
    var i := Place(s, g);
    WithoutMembers(s, h);
    WithoutOrder(s, h);
    PositionAfter(s, t, h, i);
    if h in s {
      var j := Place(s, h);
      PlaceIs(t, g, if j < i then i - 1 else i);
      if s[0] == h { PlaceIs(s, h, 0); }
    } else {
      PlaceIs(t, g, i);
    }
  }

  lemma PlaceKept(s: seq<nat>, x: seq<nat>, g: nat)
    requires Distinct(s + x) && g in s
    ensures g in s + x && Distinct(s) && Place(s + x, g) == Place(s, g)
  {
    var i := Place(s, g);
    assert (s + x)[i] == g;
    forall a, b | 0 <= a < b < |s| ensures s[a] != s[b] { assert (s + x)[a] != (s + x)[b]; }
    PlaceIs(s + x, g, i);
  }

  lemma PlaceDropped(s: seq<nat>, n: nat, g: nat)
    requires Distinct(s) && n <= |s| && g in s && forall i | 0 <= i < n :: s[i] != g
    ensures Distinct(s[n..]) && g in s[n..] && Place(s[n..], g) == Place(s, g) - n
  {
    var i := Place(s, g);
    assert s[n..][i - n] == g;
    PlaceIs(s[n..], g, i - n);
  }

  lemma JoinDistinct(s: seq<nat>, t: seq<nat>)
    requires Distinct(s) && Distinct(t) && forall x | x in t :: x !in s
    ensures Distinct(s + t)
  {
    forall i, j | 0 <= i < j < |s + t| ensures (s + t)[i] != (s + t)[j] {
      if i < |s| <= j { assert t[j - |s|] in t && s[i] in s; }
    }
  }

  // ----- What a turn does to the list -----

  /** The list at the moment of a pick: without duplicates, inside the waiting groups, headed by the picked
      one in the reserve, and a group within its share is on it, at least as far ahead as before. */
  lemma StandingOk(d: Desk, k: Pick, g: nat)
    requires DeskOk(d) && Proper(d, k)
    ensures var s := Standing(d, k);
      && Distinct(s) && (forall h | h in s :: h in d.pool.waiting)
      && (Base(d.pool) == 0 ==> |s| > 0 && s[0] == k.g)
      && (Base(d.pool) == 0 && Within(d.pool, g) ==> g in s)
      && (g in d.ready && Within(d.pool, g) ==> g in s && Place(s, g) <= Place(d.ready, g))
  {
    if Base(d.pool) == 0 {
      var all := d.ready + k.added;
      JoinDistinct(d.ready, k.added);
      if Within(d.pool, g) {
        assert g in all by { if g !in d.ready { assert g in k.added; } }
        PlaceDropped(all, k.dropped, g);
        if g in d.ready { PlaceKept(d.ready, k.added, g); }
      }
      StandingMembers(d, k);
    }
  }

  lemma StandingMembers(d: Desk, k: Pick)
    requires DeskOk(d) && Proper(d, k) && Base(d.pool) == 0 && Distinct(d.ready + k.added)
    ensures var s := Standing(d, k);
      Distinct(s) && (forall h | h in s :: h in d.pool.waiting) && |s| > 0 && s[0] == k.g
  {
    var all, s := d.ready + k.added, Standing(d, k);
    forall h | h in s ensures h in d.pool.waiting {
      assert h in all;
      if h in k.added { assert Within(d.pool, h); }
    }
  }

  lemma ServeKeeps(d: Desk, k: Pick)
    requires DeskOk(d) && Proper(d, k)
    ensures DeskOk(Serve(d, k))
  {
    var s, q := Standing(d, k), Credit(d.pool, k.g);
    StandingOk(d, k, k.g);
    TurnKeepsInv(d.pool, k.g);
    CreditEffect(d.pool, k.g);
    WithoutMembers(s, k.g);
    WithoutOrder(s, k.g);
  }

  /** A turn of another group moves a group within its share forward by one if it came from the reserve, and
      never back; and the group that got it is last on the list, or off it. */
  lemma ServeForward(d: Desk, k: Pick, g: nat)
    requires DeskOk(d) && Proper(d, k) && g != k.g && g in d.ready && Within(d.pool, g)
    ensures var e := Serve(d, k);
      && g in e.ready && Place(e.ready, g) <= Place(d.ready, g)
      && (Base(d.pool) == 0 ==> Place(e.ready, g) <= Place(d.ready, g) - 1)
  {
    StandingOk(d, k, g);
    PlaceAfter(Standing(d, k), Serve(d, k).ready, k.g, g);
  }

  /** Refreshing a group and moving it to the back is the move of a served group. */
  lemma BackOf(p: Pool, ready: seq<nat>, g: nat)
    requires Distinct(ready)
    ensures var r := Rank(p, ready, g); Back(p, ready, g) == if g in r then Without(r, g) + [g] else r
  {
    WithoutMembers(ready, g);
    if g !in ready {
      assert (ready + [g])[..|ready|] == ready;
    }
  }

  lemma ServedIsLast(d: Desk, k: Pick)
    requires DeskOk(d) && Proper(d, k)
    ensures var e := Serve(d, k);
      if Within(e.pool, k.g) then |e.ready| > 0 && e.ready[|e.ready| - 1] == k.g else k.g !in e.ready
  {
    WithoutMembers(Standing(d, k), k.g);
  }

  /** How many turns were paid from the reserve. */
  ghost function ReserveTurns(d: Desk, ks: seq<Pick>): nat {
    if |ks| == 0 then 0
    else ReserveTurns(d, ks[..|ks| - 1]) + if Base(Serves(d, ks[..|ks| - 1]).pool) == 0 then 1 else 0
  }

  /** Group `g` stays within its share through the turns `ks`, all of which go to others. */
  ghost predicate StaysWithin(d: Desk, ks: seq<Pick>, g: nat) {
    && Within(Serves(d, ks).pool, g)
    && (|ks| > 0 ==> ks[|ks| - 1].g != g && StaysWithin(d, ks[..|ks| - 1], g))
  }

  /** Round-robin inside the reserve: while a group waits within its share, at most as many turns from the
      reserve go to others as there are ready groups in front of it. */
  lemma {:induction false} ReadyInTurn(d: Desk, ks: seq<Pick>, g: nat)
    requires DeskOk(d) && AllProper(d, ks) && g in d.ready && StaysWithin(d, ks, g)
    ensures DeskOk(Serves(d, ks)) && g in Serves(d, ks).ready
    ensures ReserveTurns(d, ks) + Place(Serves(d, ks).ready, g) <= Place(d.ready, g)
  {
    if |ks| > 0 {
      var init := ks[..|ks| - 1];
      ReadyInTurn(d, init, g);
      ServeKeeps(Serves(d, init), ks[|ks| - 1]);
      ServeForward(Serves(d, init), ks[|ks| - 1], g);
    }
  }

  lemma {:induction false} ServesKeep(d: Desk, ks: seq<Pick>)
    requires DeskOk(d) && AllProper(d, ks)
    ensures DeskOk(Serves(d, ks))
  {
    if |ks| > 0 {
      ServesKeep(d, ks[..|ks| - 1]);
      ServeKeeps(Serves(d, ks[..|ks| - 1]), ks[|ks| - 1]);
    }
  }

  /** A group that waits within its share outside the list is on it from the next turn out of the reserve. */
  lemma JoinsAtOnce(d: Desk, k: Pick, g: nat)
    requires DeskOk(d) && Proper(d, k) && Base(d.pool) == 0 && Within(d.pool, g) && g != k.g
    ensures g in Serve(d, k).ready
  {
    StandingOk(d, k, g);
    PlaceAfter(Standing(d, k), Serve(d, k).ready, k.g, g);
  }

  // ----- Operations -----

  /** The group whose place an event brings up to date, if any. */
  function Touched(p: Pool, e: Event): Option<nat> {
    match e
    case Arrive(_, g) => Some(g)
    case Leave(w) => if w < |p.waiters| then Some(p.waiters[w].group) else None
    case Pay(_, g, _) => Some(g)
    case Refund(_, _, g) => Some(g)
    case _ => None
  }

  /** An event of an operation before the scheduler runs. */
  function Move(d: Desk, e: Event): Desk {
    var q, g := Play(d.pool, e), Touched(d.pool, e);
    Desk(q, if g.Some? then Rank(q, d.ready, g.value) else d.ready)
  }

  function Moves(d: Desk, es: seq<Event>): Desk {
    if |es| == 0 then d else Move(Moves(d, es[..|es| - 1]), es[|es| - 1])
  }

  lemma {:induction false} MovesPlay(d: Desk, es: seq<Event>)
    ensures Moves(d, es).pool == PlayAll(d.pool, es)
  {
    if |es| > 0 { MovesPlay(d, es[..|es| - 1]); }
  }

  lemma MoveKeeps(d: Desk, e: Event)
    requires DeskOk(d) && Due(d.pool, e) && !e.Turn?
    ensures DeskOk(Move(d, e))
  {
    EventKeepsInv(d.pool, e);
    var q, g := Play(d.pool, e), Touched(d.pool, e);
    if g.Some? { RankMembers(q, d.ready, g.value); }
    forall h | h in Move(d, e).ready ensures h in q.waiting {
      if g != Some(h) { MoveListed(d, e, h); }
    }
  }

  lemma RankMembers(p: Pool, ready: seq<nat>, g: nat)
    requires Distinct(ready)
    ensures Distinct(Rank(p, ready, g))
    ensures forall h :: h in Rank(p, ready, g) <==> if h == g then Within(p, g) else h in ready
  {
    WithoutMembers(ready, g);
    WithoutOrder(ready, g);
  }

  /** An event neither lists nor unlists another group than the one it touches. */
  lemma MoveListed(d: Desk, e: Event, h: nat)
    requires DeskOk(d) && Due(d.pool, e) && !e.Turn? && Touched(d.pool, e) != Some(h)
    ensures h in Play(d.pool, e).waiting <==> h in d.pool.waiting
  {
    match e
    case Leave(w) => WithoutMembers(d.pool.waiting, d.pool.waiters[w].group);
    case Arrive(n, g) => WithoutMembers(d.pool.waiting, g);
    case _ =>
  }

  /** An event after which a group still waits within its share never moves it back. */
  lemma MoveForward(d: Desk, e: Event, g: nat)
    requires DeskOk(d) && Due(d.pool, e) && !e.Turn? && g in d.ready && Within(Play(d.pool, e), g)
    ensures g in Move(d, e).ready && Place(Move(d, e).ready, g) <= Place(d.ready, g)
  {
    var q, h := Play(d.pool, e), Touched(d.pool, e);
    if h.Some? && h.value != g {
      if !Within(q, h.value) {
        PlaceAfter(d.ready, Move(d, e).ready, h.value, g);
      } else if h.value !in d.ready {
        JoinDistinct(d.ready, [h.value]);
        PlaceKept(d.ready, [h.value], g);
      }
    }
  }

  /** `ks` are the turns of an operation that leads from `d` to `e`. */
  ghost predicate DeskTook(d: Desk, op: Operation, ks: seq<Pick>, e: Desk) {
    && Owed(d.pool, op)
    && var m := Moves(d, Opening(d.pool, op));
    if Schedules(d.pool, op) then Scheduled(m, ks, e) else ks == [] && e == m
  }

  ghost predicate DeskPerformed(d: Desk, op: Operation, e: Desk) {
    exists ks :: DeskTook(d, op, ks, e)
  }

  // ----- The openings of the public operations -----

  lemma MoveOne(d: Desk, e: Event)
    ensures Moves(d, [e]) == Move(d, e)
  {
    assert [e][..0] == [];
  }

  lemma MoveTwo(d: Desk, e: Event, f: Event)
    ensures Moves(d, [e, f]) == Move(Move(d, e), f)
  {
    MoveOne(d, e);
    assert [e, f][..1] == [e];
  }

  /** A reservation that takes a grant, or keeps waiting. */
  lemma DeskTakes(d: Desk, n: nat, force: bool, g: nat, w: nat, e: Desk)
    requires Owed(d.pool, Reserve(n, force, g, Some(w))) && (d.pool.waiters[w].granted || !force)
    requires e == Desk(Ask(d.pool, n, force, g, Some(w)).pool, d.ready)
    ensures DeskPerformed(d, Reserve(n, force, g, Some(w)), e)
  {
    MoveOne(d, Take(w));
    assert DeskTook(d, Reserve(n, force, g, Some(w)), [], e);
  }

  /** A reservation without a waiter that is admitted at once. */
  lemma DeskPays(d: Desk, n: nat, force: bool, g: nat, e: Desk)
    requires Owed(d.pool, Reserve(n, force, g, None)) && Ask(d.pool, n, force, g, None).ok
    requires e.pool == Ask(d.pool, n, force, g, None).pool && e.ready == Rank(e.pool, d.ready, g)
    ensures DeskPerformed(d, Reserve(n, force, g, None), e)
  {
    MoveOne(d, Pay(n, g, Ask(d.pool, n, force, g, None).overshot));
    assert DeskTook(d, Reserve(n, force, g, None), [], e);
  }

  /** A reservation without a waiter that is queued. */
  lemma DeskQueues(d: Desk, n: nat, force: bool, g: nat, m: Desk, ks: seq<Pick>, e: Desk)
    requires Owed(d.pool, Reserve(n, force, g, None)) && !Ask(d.pool, n, force, g, None).ok
    requires m.pool == Enqueue(d.pool, n, g) && m.ready == Rank(m.pool, d.ready, g) && Scheduled(m, ks, e)
    ensures DeskPerformed(d, Reserve(n, force, g, None), e)
  {
    MoveOne(d, Arrive(n, g));
    assert DeskTook(d, Reserve(n, force, g, None), ks, e);
  }

  /** A forced reservation gives up its waiter first. */
  lemma DeskForces(d: Desk, n: nat, g: nat, w: nat, l: Desk, m: Desk, ks: seq<Pick>, e: Desk)
    requires Owed(d.pool, Reserve(n, true, g, Some(w))) && !d.pool.waiters[w].granted
    requires l.pool == RemoveWaiter(d.pool, w) && l.ready == Rank(l.pool, d.ready, g)
    requires m.pool == Ask(d.pool, n, true, g, Some(w)).pool && m.ready == Rank(m.pool, l.ready, g)
    requires Scheduled(m, ks, e)
    ensures DeskPerformed(d, Reserve(n, true, g, Some(w)), e)
  {
    var f := Pay(n, g, Ask(d.pool, n, true, g, Some(w)).overshot);
    MoveTwo(d, Leave(w), f);
    assert Move(d, Leave(w)) == l && Move(l, f) == m;
    assert DeskTook(d, Reserve(n, true, g, Some(w)), ks, e);
  }

  lemma DeskCancels(d: Desk, w: nat, m: Desk, ks: seq<Pick>, e: Desk)
    requires d.pool.fair && w < |d.pool.waiters| && d.pool.waiters[w].group < |d.pool.groups| && !d.pool.waiters[w].done
    requires m.pool == RemoveWaiter(d.pool, w)
    requires m.ready == Rank(m.pool, d.ready, d.pool.waiters[w].group) && Scheduled(m, ks, e)
    ensures Cancelled(d.pool, w, e.pool) && DeskPerformed(d, BudgetRuns.Cancel(w), e)
  {
    ScheduledSettles(m, ks, e);
    MoveOne(d, Leave(w));
    assert DeskTook(d, BudgetRuns.Cancel(w), ks, e);
  }

  lemma DeskReleases(d: Desk, n: nat, back: nat, g: nat, m: Desk, ks: seq<Pick>, e: Desk)
    requires Owed(d.pool, GiveBack(n, back, g)) && n != 0 && m.pool == Release(d.pool, n, back, g)
    requires m.ready == Rank(m.pool, d.ready, g) && Scheduled(m, ks, e)
    ensures DeskPerformed(d, GiveBack(n, back, g), e)
  {
    MoveOne(d, Refund(n, back, g));
    assert DeskTook(d, GiveBack(n, back, g), ks, e);
  }

  /** An operation that does not look at the list: registration, unregistration, the return of nothing. */
  lemma DeskIdles(d: Desk, op: Operation, e: Desk)
    requires Owed(d.pool, op) && e.ready == d.ready
    requires match op
      case Enter(key) => e.pool == Register(d.pool, key).0
      case Exit(g) => e.pool == Unref(d.pool, g)
      case GiveBack(n, back, g) => n == 0 && e.pool == d.pool
      case _ => false
    ensures DeskPerformed(d, op, e)
  {
    match op
    case Enter(key) => MoveOne(d, Join(key)); assert DeskTook(d, op, [], e);
    case Exit(g) => MoveOne(d, Part(g)); assert DeskTook(d, op, [], e);
    case GiveBack(n, back, g) => assert DeskTook(d, op, [], e);
  }

  // ----- Round-robin over operations -----

  /** What the desk does is what the pool does. */
  lemma DeskTookPool(d: Desk, op: Operation, ks: seq<Pick>, e: Desk)
    requires DeskTook(d, op, ks, e)
    ensures Took(d.pool, op, Turns(ks), e.pool)
  {
    MovesPlay(d, Opening(d.pool, op));
    if Schedules(d.pool, op) { TurnsLegal(Moves(d, Opening(d.pool, op)), ks); }
  }

  /** The opening of an operation is at most two events, none of them a turn. */
  lemma {:induction false} MovesKeep(d: Desk, es: seq<Event>)
    requires DeskOk(d) && AllDue(d.pool, es) && forall i | 0 <= i < |es| :: !es[i].Turn?
    ensures DeskOk(Moves(d, es))
  {
    if |es| > 0 {
      var init := es[..|es| - 1];
      MovesKeep(d, init);
      MovesPlay(d, init);
      MoveKeeps(Moves(d, init), es[|es| - 1]);
    }
  }

  /** Group `g` waits within its share after each of the events. */
  ghost predicate WithinAll(d: Desk, es: seq<Event>, g: nat) {
    Within(Moves(d, es).pool, g) && (|es| > 0 ==> WithinAll(d, es[..|es| - 1], g))
  }

  lemma {:induction false} MovesForward(d: Desk, es: seq<Event>, g: nat)
    requires DeskOk(d) && AllDue(d.pool, es) && (forall i | 0 <= i < |es| :: !es[i].Turn?)
    requires g in d.ready && WithinAll(d, es, g)
    ensures g in Moves(d, es).ready && Place(Moves(d, es).ready, g) <= Place(d.ready, g)
  {
    if |es| > 0 {
      var init := es[..|es| - 1];
      MovesForward(d, init, g);
      MovesKeep(d, init);
      MovesPlay(d, init);
      MoveForward(Moves(d, init), es[|es| - 1], g);
    }
  }

  /** A group waits within its share all through an operation and gets no turn in it. */
  ghost predicate WaitsWithin(d: Desk, op: Operation, ks: seq<Pick>, g: nat) {
    WithinAll(d, Opening(d.pool, op), g) && StaysWithin(Moves(d, Opening(d.pool, op)), ks, g)
  }

  /** How many turns of an operation were paid from the reserve. */
  ghost function ReserveTurnsIn(d: Desk, op: Operation, ks: seq<Pick>): nat {
    ReserveTurns(Moves(d, Opening(d.pool, op)), ks)
  }

  lemma OpeningNoTurn(p: Pool, op: Operation)
    requires Inv(p) && Owed(p, op)
    ensures AllDue(p, Opening(p, op)) && forall i | 0 <= i < |Opening(p, op)| :: !Opening(p, op)[i].Turn?
  {
    OpeningDue(p, op);
  }

  lemma DeskServes(d: Desk, op: Operation, ks: seq<Pick>, e: Desk, g: nat)
    requires DeskOk(d) && DeskTook(d, op, ks, e) && g in d.ready && WaitsWithin(d, op, ks, g)
    ensures DeskOk(e) && g in e.ready
    ensures ReserveTurnsIn(d, op, ks) + Place(e.ready, g) <= Place(d.ready, g)
  {
    var es := Opening(d.pool, op);
    var m := Moves(d, es);
    OpeningNoTurn(d.pool, op);
    MovesKeep(d, es);
    MovesForward(d, es, g);
    assert Serves(m, []) == m;
    ReadyInTurn(m, ks, g);
  }

  /** A run of public operations at the desk, with the turns given in each. */
  ghost predicate DeskRun(ds: seq<Desk>, ops: seq<Operation>, turns: seq<seq<Pick>>) {
    && |ds| == |ops| + 1 && |turns| == |ops|
    && forall i | 0 <= i < |ops| :: DeskTook(ds[i], ops[i], turns[i], ds[i + 1])
  }

  ghost function ReserveTurnsOf(ds: seq<Desk>, ops: seq<Operation>, turns: seq<seq<Pick>>, n: nat): nat
    requires n <= |ds| && n <= |ops| && n <= |turns|
  {
    if n == 0 then 0
    else ReserveTurnsOf(ds, ops, turns, n - 1) + ReserveTurnsIn(ds[n - 1], ops[n - 1], turns[n - 1])
  }

  /** Round-robin inside the reserve over public operations: while a ready group waits within its share and
      gets no turn, through any reservations, cancellations, releases and registrations, at most as many turns
      from the reserve go to others as there were ready groups in front of it. */
  lemma {:induction false} ReserveServedByOperations(ds: seq<Desk>, ops: seq<Operation>, turns: seq<seq<Pick>>, n: nat,
                                                     g: nat)
    requires DeskRun(ds, ops, turns) && n <= |ops| && DeskOk(ds[0]) && g in ds[0].ready
    requires forall i | 0 <= i < n :: WaitsWithin(ds[i], ops[i], turns[i], g)
    ensures DeskOk(ds[n]) && g in ds[n].ready
    ensures ReserveTurnsOf(ds, ops, turns, n) + Place(ds[n].ready, g) <= Place(ds[0].ready, g)
  {
    if n > 0 {
      ReserveServedByOperations(ds, ops, turns, n - 1, g);
      DeskServes(ds[n - 1], ops[n - 1], turns[n - 1], ds[n], g);
    }
  }
}
