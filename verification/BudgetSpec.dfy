/** What a shared byte budget means, without the index that makes its scheduler fast.

    Groups and waiters live in tables that only grow, and a pointer to one is its table index, so
    two holders of the same index see each other's updates and a deleted group is never confused
    with a later one of the same name. `ByteBudget` refines the functions of this module. */
module BudgetSpec {
  import opened Words
  import opened Tables

  /** Largest credit of one scheduler turn (64 KiB). */
  const QUANTUM: nat := 0x1_0000

  datatype Group = Group(key: string, refs: nat, used: nat, escape: nat, pending: nat, active: bool,
                         queue: seq<nat>)

  /** `granted` is also "its wake channel is closed"; `done` is "its owner has let go of it". */
  datatype Waiter = Waiter(n: nat, credit: nat, group: nat, granted: bool, done: bool)

  /** `wakes` counts broadcasts of an ungrouped budget: a channel taken at count k is closed once
      the count exceeds k. */
  datatype Pool = Pool(total: nat, fair: bool, reserve: nat, minGroup: nat,
                       used: nat, escape: nat, active: nat,
                       names: map<string, nat>, groups: seq<Group>, waiters: seq<Waiter>,
                       waiting: seq<nat>, wakes: nat)

  /** What an empty message is charged. */
  const OVERHEAD: nat := 256

  function Empty(total: nat, fair: bool, reserve: nat, minGroup: nat): Pool {
    Pool(total, fair, reserve, minGroup, 0, 0, 0, map[], [], [], [], 0)
  }

  /** A fair budget with its defaults, or the error that its reserve is not smaller than its total. */
  function NewFair(total: u64, reserve: u64, minGroup: u64): Option<Pool> {
    var r := if reserve == 0 then total / 8 else reserve;
    if (total == 0 && r != 0) || (total != 0 && r >= total) then None
    else Some(Empty(total, true, r, if minGroup == 0 then OVERHEAD else minGroup))
  }

  function Dec(x: nat): nat {
    if x == 0 then MAX64 else x - 1
  }

  /** `a - b` on 64-bit counters, for any stored values. */
  function Less(a: nat, b: nat): nat {
    if b <= a then a - b else (a - b) % TWO64
  }

  /** Group `g` becomes `x`, with its active mark and the active count brought up to date. */
  function Put(p: Pool, g: nat, x: Group): Pool
    requires g < |p.groups|
  {
    var now := x.used != 0 || x.pending != 0;
    p.(groups := p.groups[g := x.(active := now)],
    active := if now == x.active then p.active else if now then p.active + 1 else Dec(p.active))
  }

  function ShareOf(total: nat, minGroup: nat, groups: nat): nat {
    Max(total / Max(groups, 2), minGroup)
  }

  /** The fair share of `g`, which counts as active once it asks. */
  function Share(p: Pool, g: nat): nat
    requires g < |p.groups|
  {
    ShareOf(p.total, p.minGroup, if p.groups[g].active then p.active else p.active + 1)
  }

  /** What `g` would hold once its oldest waiter is served, saturating at the largest word. */
  function NeedOf(groups: seq<Group>, waiters: seq<Waiter>, g: nat): nat
    requires g < |groups|
  {
    if |groups[g].queue| == 0 || groups[g].queue[0] >= |waiters| then 0
    else
      var w := waiters[groups[g].queue[0]];
      var remaining := Less(w.n, w.credit);
      if remaining > MAX64 - groups[g].used then MAX64 else groups[g].used + remaining
  }

  function Need(p: Pool, g: nat): nat
    requires g < |p.groups|
  {
    NeedOf(p.groups, p.waiters, g)
  }

  /** Bytes held under the cap: escapes are outside it. */
  function Net(p: Pool): nat {
    Less(p.used, p.escape)
  }

  /** Room any group may borrow, which is everything below the reserve. */
  function Base(p: Pool): nat {
    if p.total == 0 then MAX64
    else if Net(p) + p.reserve < p.total then p.total - p.reserve - Net(p)
    else 0
  }

  predicate Fits(p: Pool, n: nat, g: nat)
    requires p.fair ==> g < |p.groups|
  {
    p.total == 0
    || (n <= p.total && (if p.fair then Net(p) else p.used) <= p.total - n
        && (!p.fair || Net(p) + n + p.reserve <= p.total
            || (n <= Share(p, g) && p.groups[g].used <= Share(p, g) - n)))
  }

  function Charge(p: Pool, n: nat, g: nat, escape: bool): Pool
    requires g < |p.groups|
  {
    var e := if escape then n else 0;
    var x := p.groups[g];
    Put(p.(used := p.used + n, escape := p.escape + e), g, x.(used := x.used + n, escape := x.escape + e))
  }

  function Release(p: Pool, n: nat, escape: nat, g: nat): Pool
    requires g < |p.groups|
  {
    var x := p.groups[g];
    var c := Min(Min(n, x.used), p.used);
    Put(p.(used := p.used - c, escape := Less(p.escape, escape)), g,
        x.(used := x.used - c, escape := Less(x.escape, escape)))
  }

  function Unref(p: Pool, g: nat): Pool
    requires g < |p.groups|
  {
    var x := p.groups[g].(refs := Dec(p.groups[g].refs));
    p.(groups := p.groups[g := x], names := if x.refs == 0 then p.names - {x.key} else p.names)
  }

  /** The round-robin list follows whether `g` has waiters. */
  function Relist(p: Pool, g: nat): Pool
    requires g < |p.groups|
  {
    if |p.groups[g].queue| == 0 then p.(waiting := Without(p.waiting, g))
    else if g in p.waiting then p
    else p.(waiting := p.waiting + [g])
  }

  // ----- The scheduler -----

  /** A group the scheduler may credit next: the front of the round-robin list while there is room
      below the reserve, afterwards any waiting group within its share. */
  predicate MayPick(p: Pool, g: nat) {
    && g in p.waiting && g < |p.groups|
    && |p.groups[g].queue| > 0 && p.groups[g].queue[0] < |p.waiters|
    && p.waiters[p.groups[g].queue[0]].credit < p.waiters[p.groups[g].queue[0]].n
    && (p.total != 0 ==> Net(p) < p.total)
    && (if Base(p) != 0 then g == p.waiting[0] else Need(p, g) <= Share(p, g))
  }

  function Room(p: Pool, g: nat): nat
    requires MayPick(p, g)
  {
    if p.total == 0 then MAX64
    else if Need(p, g) <= Share(p, g) then p.total - Net(p)
    else Base(p)
  }

  function Amount(p: Pool, g: nat): nat
    requires MayPick(p, g)
  {
    var w := p.waiters[p.groups[g].queue[0]];
    Min(Min(w.n - w.credit, QUANTUM), Room(p, g))
  }

  /** The oldest waiter of `g` after receiving `c` more bytes. */
  function Credited(w: Waiter, c: nat): Waiter {
    w.(credit := w.credit + c, granted := w.granted || w.credit + c == w.n)
  }

  /** The oldest waiter of `g` is credited `c` bytes, which are charged to the group, and leaves the
      queue when its request is complete. */
  function Book(p: Pool, g: nat, c: nat): Pool
    requires g < |p.groups| && |p.groups[g].queue| > 0 && p.groups[g].queue[0] < |p.waiters|
  {
    var h := p.groups[g].queue[0];
    var w := Credited(p.waiters[h], c);
    var q := Charge(p, c, g, false);
    var queue := if w.credit == w.n then q.groups[g].queue[1..] else q.groups[g].queue;
    q.(waiters := q.waiters[h := w], groups := q.groups[g := q.groups[g].(queue := queue)])
  }

  /** One turn of the scheduler: credit the group, and send it to the back of the list. */
  function Credit(p: Pool, g: nat): Pool
    requires MayPick(p, g)
  {
    var q := Book(p, g, Amount(p, g));
    q.(waiting := if |q.groups[g].queue| == 0 then Without(q.waiting, g) else Without(q.waiting, g) + [g])
  }

  /** The pool after the scheduler's turns `picks`. */
  function Credits(p: Pool, picks: seq<nat>): Pool {
    if |picks| == 0 then p
    else
      var q := Credits(p, picks[..|picks| - 1]);
      if MayPick(q, picks[|picks| - 1]) then Credit(q, picks[|picks| - 1]) else q
  }

  predicate Legal(p: Pool, picks: seq<nat>) {
    |picks| == 0
    || (Legal(p, picks[..|picks| - 1])
        && MayPick(Credits(p, picks[..|picks| - 1]), picks[|picks| - 1]))
  }

  /** Nothing usable is left idle: nobody waits, or the cap is reached, or only the reserve is left
      and every waiting group is beyond its share. */
  ghost predicate Quiet(p: Pool) {
    || |p.waiting| == 0
    || (p.total != 0 && Net(p) >= p.total)
    || (Base(p) == 0 && forall g | g in p.waiting && g < |p.groups| :: Need(p, g) > Share(p, g))
  }

  /** `q` is what the scheduler may leave behind when started on `p`. */
  ghost predicate Settled(p: Pool, q: Pool) {
    exists picks :: Legal(p, picks) && q == Credits(p, picks) && Quiet(q)
  }

  // ----- Public operations -----

  /** A granted waiter is turned into bytes its owner holds. */
  function Consume(p: Pool, w: nat): Pool
    requires w < |p.waiters| && p.waiters[w].group < |p.groups|
  {
    var g := p.waiters[w].group;
    var x := p.groups[g];
    Unref(Put(p.(waiters := p.waiters[w := p.waiters[w].(done := true)]), g, x.(pending := Dec(x.pending))), g)
  }

  /** A waiter lets go: its credit goes back, and its hold on the group ends. */
  function Depart(p: Pool, w: nat): Pool
    requires w < |p.waiters| && p.waiters[w].group < |p.groups|
  {
    var g := p.waiters[w].group;
    var x := p.groups[g];
    var c := Min(Min(p.waiters[w].credit, x.used), p.used);
    Unref(Put(p.(used := p.used - c, waiters := p.waiters[w := p.waiters[w].(credit := 0, done := true)]), g,
              x.(used := x.used - c, queue := Without(x.queue, w), pending := Dec(x.pending))), g)
  }

  function RemoveWaiter(p: Pool, w: nat): Pool
    requires w < |p.waiters| && p.waiters[w].group < |p.groups|
  {
    Relist(Depart(p, w), p.waiters[w].group)
  }

  /** A request joins the queue of its group, and the group stays registered for it. */
  function Line(p: Pool, n: nat, g: nat): Pool
    requires g < |p.groups|
  {
    var x := p.groups[g];
    Put(p.(waiters := p.waiters + [Waiter(n, 0, g, false, false)]), g,
        x.(queue := x.queue + [|p.waiters|], pending := x.pending + 1, refs := x.refs + 1))
  }

  function Enqueue(p: Pool, n: nat, g: nat): Pool
    requires g < |p.groups|
  {
    Relist(Line(p, n, g), g)
  }

  /** The part of an answer that is decided before the scheduler runs. `waiter` is the pointer the
      caller keeps, `schedule` whether the scheduler runs at all. */
  datatype Reply = Reply(pool: Pool, ok: bool, overshot: bool, waiter: Option<nat>, schedule: bool)

  predicate Known(p: Pool, g: nat, w: Option<nat>) {
    p.fair ==> g < |p.groups|
               && (w.Some? ==> w.value < |p.waiters| && p.waiters[w.value].group == g && !p.waiters[w.value].done)
  }

  function Ask(p: Pool, n: nat, force: bool, g: nat, w: Option<nat>): Reply
    requires Known(p, g, w)
  {
    if !p.fair then
      var fits := Fits(p, n, g);
      if fits || force then Reply(p.(used := p.used + n), true, !fits, None, false)
      else Reply(p, false, false, Some(p.wakes), false)
    else if w.Some? && p.waiters[w.value].granted then
      Reply(Consume(p, w.value), true, false, None, false)
    else if w.Some? && !force then
      Reply(p, false, false, w, false)
    else
      var q := if w.Some? then RemoveWaiter(p, w.value) else p;
      var fits := Fits(q, n, g);
      var queued := |q.groups[g].queue| != 0;
      if force || (fits && !queued) then
        Reply(Charge(q, n, g, !fits || queued), true, !fits || queued, None, w.Some?)
      else
        Reply(Enqueue(q, n, g), false, false, Some(|q.waiters|), true)
  }

  /** `q` with reply `r` is a possible outcome of reserving `n` bytes. */
  ghost predicate Reserved(p: Pool, n: nat, force: bool, g: nat, w: Option<nat>, q: Pool, r: Reply) {
    && Known(p, g, w)
    && r == Ask(p, n, force, g, w)
    && if r.schedule then Settled(r.pool, q) else q == r.pool
  }

  ghost predicate Cancelled(p: Pool, w: nat, q: Pool) {
    if !p.fair then q == p
    else w < |p.waiters| && p.waiters[w].group < |p.groups| && Settled(RemoveWaiter(p, w), q)
  }

  ghost predicate Released(p: Pool, n: nat, escape: nat, g: nat, q: Pool) {
    if n == 0 then q == p
    else if !p.fair then q == p.(used := p.used - Min(n, p.used), wakes := p.wakes + 1)
    else g < |p.groups| && Settled(Release(p, n, escape, g), q)
  }

  /** Registration by name: a new group, or one more holder of a known one. */
  function Register(p: Pool, key: string): (Pool, Option<nat>) {
    if !p.fair || key == "" then (p, None)
    else if key in p.names && p.names[key] < |p.groups| then
      var g := p.names[key];
      (p.(groups := p.groups[g := p.groups[g].(refs := p.groups[g].refs + 1)]), Some(g))
    else
      (p.(groups := p.groups + [Group(key, 1, 0, 0, 0, false, [])], names := p.names[key := |p.groups|]),
       Some(|p.groups|))
  }
}
