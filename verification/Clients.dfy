/** Many clients on one shared budget: every send window, every blocked or retrying Add call, and the
    pool, as a transition system. A step is what one goroutine does under its buffer's lock. */
module Clients {
  import opened Words
  import opened Tables
  import opened BudgetSpec
  import opened WindowSpec
  import opened WindowRuns
  import opened WindowTheorems

  // ----- One attempt to add -----

  /** Refused before the pool is asked: the count window is full, or the client's own byte cap is
      reached while an acknowledgement is on its way. */
  predicate RefusedLocally(w: Window, size: nat) {
    !Available(w) || (w.accounting && Over(w, size) && HeldFlagged(w))
  }

  /** The window after the pool admitted request `r`. */
  function Admitted(w: Window, r: Request, overshot: bool, pool: Pool): Window
    requires w.ackEvery > 0
  {
    Admit(w, r, Over(w, r.size) || overshot, Step(w, r.size, Some((pool.used, pool.total))), overshot && pool.fair)
  }

  /** Would an attempt be admitted right now? */
  predicate Admissible(w: Window, r: Request, p: Pool, g: nat, waiter: Option<nat>)
    requires Known(p, g, waiter)
  {
    w.running && !RefusedLocally(w, r.size) && Ask(p, r.size, !HeldFlagged(w), g, waiter).ok
  }

  /** One attempt of an Add call with its waiter, leaving window `x`, pool `q` and waiter `kept`. */
  ghost predicate Tried(w: Window, r: Request, p: Pool, g: nat, waiter: Option<nat>,
                        x: Window, q: Pool, ok: bool, kept: Option<nat>)
  {
    && Known(p, g, waiter) && w.ackEvery > 0
    && if RefusedLocally(w, r.size) then
         && !ok && kept == None && x == w
         && (if waiter.Some? then Cancelled(p, waiter.value, q) else q == p)
       else
         var a := Ask(p, r.size, !HeldFlagged(w), g, waiter);
         && Reserved(p, r.size, !HeldFlagged(w), g, waiter, q, a)
         && ok == a.ok
         && (if ok then x == Admitted(w, r, a.overshot, q) && kept == None else x == w && kept == a.waiter)
  }

  /** One attempt without a shared budget, with or without a count of bytes. */
  ghost predicate TriedAlone(w: Window, r: Request, x: Window, ok: bool) {
    && w.ackEvery > 0
    && if RefusedLocally(w, r.size) then !ok && x == w
       else ok && x == Admit(w, r, w.accounting && Over(w, r.size), if w.accounting then Step(w, r.size, None) else 0, false)
  }

  // ----- The system -----

  /** `over` is history: the numbers of the held messages that overshot the pool when they came. */
  datatype Client = Client(w: Window, group: nat, over: set<u64>)

  ghost function Bytes(): Client -> nat { (c: Client) => c.w.bytes }
  ghost function Escaped(): Client -> nat { (c: Client) => c.w.escapeBytes }
  ghost function Overs(): Client -> nat { (c: Client) => OverBytes(c) }

  ghost function SizeIn(over: set<u64>): Slot -> nat {
    (s: Slot) => if !s.retired && s.msg.seqNum in over then s.size else 0
  }

  /** What the overshooting messages of a client weigh. */
  ghost function OverBytes(c: Client): nat {
    if c.w.closed then 0 else Sum(c.w.slots, SizeIn(c.over))
  }

  datatype Stage = Trying | Blocked(wakes: nat) | Gone

  /** An Add call. `waiter` is its pool waiter, or for an ungrouped pool the broadcast it waits for. */
  datatype Adder = Adder(client: nat, r: Request, waiter: Option<nat>, stage: Stage)

  datatype System = System(pool: Pool, clients: seq<Client>, adders: seq<Adder>)

  datatype Move =
    | Open(key: string, maxBytes: nat)
    | Call(client: nat, r: Request)
    | Attempt(adder: nat)
    | GiveUp(adder: nat)
    | Operate(client: nat, op: Op)

  /** What an operation on a window hands back to the pool. */
  ghost function Refunds(w: Window, op: Op): seq<Refund>
    requires Enabled(w, op)
  {
    match op
    case Confirmed(sn, backing) => AckRefunds(w, AckCount(w, sn, backing))
    case Deliver => Next(w).refunds
    case Restart => ResetRefunds(w)
    case Shut => [CloseRefund(w)]
    case _ => []
  }

  /** The pools a series of refunds passes through. */
  ghost predicate Chain(rs: seq<Refund>, g: nat, pools: seq<Pool>) {
    && |pools| == |rs| + 1
    && forall i | 0 <= i < |rs| :: Released(pools[i], rs[i].bytes, rs[i].escape, g, pools[i + 1])
  }

  ghost predicate ReleasedAll(p: Pool, rs: seq<Refund>, g: nat, q: Pool) {
    exists pools :: Chain(rs, g, pools) && pools[0] == p && pools[|rs|] == q
  }

  /** Number `sn` is not that of a held, live slot. */
  predicate Ended(w: Window, sn: u64) {
    Pos(w, sn) >= |w.slots| || w.slots[Pos(w, sn)].retired
  }

  /** An overshooting message counts while it is held, live and charged. */
  function StillOver(over: set<u64>, w: Window): set<u64> {
    set sn | sn in over && !w.closed && !Ended(w, sn)
  }

  ghost predicate Stepped(s: System, m: Move, t: System) {
    match m
    case Open(key, maxBytes) =>
      var (q, g) := Register(s.pool, key);
      && (s.pool.fair ==> g.Some?)
      && t == System(q, s.clients + [Client(Fresh(true, maxBytes), if g.Some? then g.value else 0, {})], s.adders)
    case Call(c, r) =>
      && c < |s.clients| && r.size > 0
      && t == s.(adders := s.adders + [Adder(c, r, None, Trying)])
    case Attempt(i) =>
      && i < |s.adders| && s.adders[i].client < |s.clients| && s.adders[i].stage != Gone
      && AttemptStep(s, i, t)
    case GiveUp(i) =>
      && i < |s.adders|
      && t == s.(pool := t.pool, adders := s.adders[i := s.adders[i].(waiter := None, stage := Gone)])
      && (if s.adders[i].waiter.Some? then Cancelled(s.pool, s.adders[i].waiter.value, t.pool) else t.pool == s.pool)
    case Operate(c, op) =>
      && c < |s.clients| && !op.Add? && Enabled(s.clients[c].w, op)
      && OperateStep(s, c, op, t)
  }

  ghost predicate AttemptStep(s: System, i: nat, t: System)
    requires i < |s.adders| && s.adders[i].client < |s.clients|
  {
    var a, c := s.adders[i], s.clients[s.adders[i].client];
    && c.w.running
    && |t.clients| == |s.clients| && |t.adders| == |s.adders|
    && t.clients == s.clients[a.client := t.clients[a.client]]
    && t.adders == s.adders[i := t.adders[i]]
    && var x, b := t.clients[a.client], t.adders[i];
    && Tried(c.w, a.r, s.pool, c.group, a.waiter, x.w, t.pool, b.stage == Gone, b.waiter)
    && x.group == c.group
    && b == a.(waiter := b.waiter, stage := if b.stage == Gone then Gone else Blocked(c.w.wakes))
    && x.over == c.over + if b.stage == Gone && Ask(s.pool, a.r.size, !HeldFlagged(c.w), c.group, a.waiter).overshot
                          then {c.w.next} else {}
  }

  ghost predicate OperateStep(s: System, c: nat, op: Op, t: System)
    requires c < |s.clients| && Enabled(s.clients[c].w, op)
  {
    var w, g := s.clients[c].w, s.clients[c].group;
    var x := Apply(w, op);
    && t.adders == s.adders
    && t.clients == s.clients[c := Client(x, g, StillOver(s.clients[c].over, x))]
    && exists m ::
         ReleasedAll(s.pool, Refunds(w, op), g, m)
         && t.pool == if op.Shut? && s.pool.fair && !w.closed && g < |m.groups| then Unref(m, g) else m
  }

  // ----- Overshooting -----

  /** The move is an attempt that the pool admits beyond its limits. */
  ghost predicate Overshoots(s: System, m: Move) {
    && m.Attempt? && m.adder < |s.adders| && s.adders[m.adder].client < |s.clients|
    && var a, c := s.adders[m.adder], s.clients[s.adders[m.adder].client];
    && Known(s.pool, c.group, a.waiter) && !RefusedLocally(c.w, a.r.size)
    && Ask(s.pool, a.r.size, !HeldFlagged(c.w), c.group, a.waiter).overshot
  }

  /** It overshoots while an earlier overshooting message of its client is held ... */
  ghost predicate Second(s: System, m: Move) {
    Overshoots(s, m) && s.clients[s.adders[m.adder].client].over != {}
  }

  /** ... and while its client remembers an escape, which the buffer has one place for. */
  ghost predicate Overwrites(s: System, m: Move) {
    Overshoots(s, m) && s.clients[s.adders[m.adder].client].w.escapeBytes != 0
  }

  /** The overshooting messages of a client are ones it holds, unretired. */
  ghost predicate Carried(c: Client) {
    c.over == StillOver(c.over, c.w)
  }

  /** A client with overshooting messages holds an acknowledgement request at or after them. */
  ghost predicate OverAsks(c: Client) {
    c.over != {} ==> HeldFlagged(c.w) && forall sn | sn in c.over :: c.w.first <= sn <= c.w.lastFlagged
  }

  /** Among the first `j` tracked frames, the one numbered `sn` had its last transmission. */
  ghost predicate LastSent(w: Window, sn: u64, j: nat)
    requires j <= |w.tracked|
  {
    exists k | 0 <= k < j :: w.tracked[k].sn == sn && ToRetire(w, w.tracked[k])
  }

  /** The guard a delivery reset lacks: it must not retire the frame that carries the request while
      an overshooting message stays. */
  ghost predicate SafeRestart(c: Client) {
    var w := c.w;
    LastSent(w, w.lastFlagged, |w.tracked|) ==> forall sn | sn in c.over :: LastSent(w, sn, |w.tracked|)
  }

  // ----- Runs -----

  ghost predicate Steps(states: seq<System>, moves: seq<Move>) {
    && |states| == |moves| + 1
    && forall i | 0 <= i < |moves| :: Stepped(states[i], moves[i], states[i + 1])
  }

  /** Nobody yet, on a new ungrouped or fair budget. */
  ghost predicate Begins(s: System) {
    && s.clients == [] && s.adders == []
    && (s.pool == Empty(s.pool.total, false, 0, 0)
        || exists total, reserve, minGroup :: NewFair(total, reserve, minGroup) == Some(s.pool))
  }

  /** Sequence numbers stay below the 64-bit wrap. */
  ghost predicate Numbered(s: System) {
    forall c | 0 <= c < |s.clients| :: Plain(s.clients[c].w)
  }

  /** Delivery is reset only safely. */
  ghost predicate SafeMove(s: System, m: Move) {
    m.Operate? && m.op == Restart && m.client < |s.clients| ==> SafeRestart(s.clients[m.client])
  }
}
