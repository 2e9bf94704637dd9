/** Who may reconnect, and what closing guarantees: the flags, the connection lock and the worker count
    of a client, stepped by any number of goroutines in any order. */
module Reconnects {
  import opened Tables

  /** Reconnect reads the closing flag, then swaps the reconnect flag. */
  datatype Ask = Look | Swap

  /** Connect, while it holds the lock: the first look at the closing flag, the dial and handshake, the
      second look, clearing the stop event, starting workers, giving ownership back first in the owner's
      variable (Let) and then in the shared flag (Hand), the start event, and the release of the lock. */
  datatype Place = First | Dial | Second | Clear | Spawn(left: nat) | Let | Hand | Start | Unlock

  datatype WorkerAt = Waiting | Running | Asking(ask: Ask) | Leaving | Finished

  /** Close sets the closing flag; disconnect sets stop, waits for the lock, then for the workers. */
  datatype CloserAt = Flag | Stop | Queue | Join | Closed

  /** The reconnect goroutine: disconnect, then connect until it succeeds, then its deferred end. */
  datatype OwnerAt = Disc | DiscQueue | DiscJoin | ConnQueue | Conn(place: Place) | Retry | Return | Over

  datatype Thread =
    | Caller(ask: Option<Ask>)
    | Worker(worker: WorkerAt)
    | Closer(closer: CloserAt)
    | Initial(first: Option<Place>)
    | Owner(owner: OwnerAt, owns: bool)

  datatype Shared = Shared(closing: bool, reconnecting: bool, stop: bool, started: bool, lock: Option<nat>)

  datatype Net = Net(s: Shared, threads: seq<Thread>)

  const WORKERS: nat := 3

  /** A client is built by a first connect, which holds the lock. */
  function NewClient(): Net {
    Net(Shared(false, false, false, false, Some(0)), [Initial(Some(First))])
  }

  predicate Alive(t: Thread) {
    t.Worker? && t.worker != Finished
  }

  predicate NoWorkers(threads: seq<Thread>) {
    forall i | 0 <= i < |threads| :: !Alive(threads[i])
  }

  /** What one goroutine does in a step: shared state, its own state, and a goroutine it starts. */
  datatype Act = Act(s: Shared, t: Thread, spawned: Option<Thread>)

  /** The swap: whoever finds the flag clear starts a goroutine that owns reconnection. */
  function Swapped(s: Shared, t: Thread): Act {
    Act(s.(reconnecting := true), t, if s.reconnecting then None else Some(Owner(Disc, true)))
  }

  function CallerStep(s: Shared, t: Thread): Act
    requires t.Caller?
  {
    if t.ask == Some(Look) then Act(s, Caller(if s.closing then None else Some(Swap)), None)
    else if t.ask == Some(Swap) then Swapped(s, Caller(None))
    else Act(s, t, None)
  }

  /** A worker waits for the start event, runs until the socket fails or it is stopped, and may then ask
      for a reconnect. */
  function WorkerStep(s: Shared, t: Thread, good: bool): Act
    requires t.Worker?
  {
    match t.worker
    case Waiting => Act(s, if s.started then Worker(Running) else t, None)
    case Running => Act(s, Worker(if good then Leaving else Asking(Look)), None)
    case Asking(Look) => Act(s, Worker(if s.closing then Leaving else Asking(Swap)), None)
    case Asking(Swap) => Swapped(s, Worker(Leaving))
    case Leaving => Act(s, Worker(Finished), None)
    case Finished => Act(s, t, None)
  }

  function CloserStep(s: Shared, i: nat, t: Thread, idle: bool): Act
    requires t.Closer?
  {
    match t.closer
    case Flag => Act(s.(closing := true), Closer(Stop), None)
    case Stop => Act(s.(stop := true), Closer(Queue), None)
    case Queue => if s.lock == None then Act(s.(lock := Some(i)), Closer(Join), None) else Act(s, t, None)
    case Join => if idle then Act(s.(lock := None), Closer(Closed), None) else Act(s, t, None)
    case Closed => Act(s, t, None)
  }

  /** One step of connect: the next place, or None when it returns, with the lock released; `ok` is
      whether it returned without an error. */
  datatype Connect = Connect(s: Shared, next: Option<Place>, ok: bool, spawned: Option<Thread>)

  function ConnectStep(s: Shared, p: Place, owner: bool, good: bool): Connect {
    match p
    case First => if s.closing then Connect(s.(lock := None), None, false, None)
                  else Connect(s.(started := false), Some(Dial), true, None)
    case Dial => if good then Connect(s, Some(Second), true, None) else Connect(s.(lock := None), None, false, None)
    case Second => if s.closing then Connect(s.(lock := None), None, false, None) else Connect(s, Some(Clear), true, None)
    case Clear => Connect(s.(stop := false), Some(Spawn(WORKERS)), true, None)
    case Spawn(left) =>
      if left == 0 then Connect(s, Some(if owner then Let else Start), true, None)
      else Connect(s, Some(Spawn(left - 1)), true, Some(Worker(Waiting)))
    case Let => Connect(s, Some(Hand), true, None)
    case Hand => Connect(s.(reconnecting := false), Some(Start), true, None)
    case Start => Connect(s.(started := true), Some(Unlock), true, None)
    case Unlock => Connect(s.(lock := None), None, true, None)
  }

  function InitialStep(s: Shared, t: Thread, good: bool): Act
    requires t.Initial?
  {
    if t.first.None? then Act(s, t, None)
    else
      var c := ConnectStep(s, t.first.value, false, good);
      Act(c.s, Initial(c.next), c.spawned)
  }

  function OwnerStep(s: Shared, i: nat, t: Thread, idle: bool, good: bool): Act
    requires t.Owner?
  {
    match t.owner
    case Disc => Act(s.(stop := true), t.(owner := DiscQueue), None)
    case DiscQueue => if s.lock == None then Act(s.(lock := Some(i)), t.(owner := DiscJoin), None) else Act(s, t, None)
    case DiscJoin => if idle then Act(s.(lock := None), t.(owner := ConnQueue), None) else Act(s, t, None)
    case ConnQueue => if s.lock == None then Act(s.(lock := Some(i)), t.(owner := Conn(First)), None) else Act(s, t, None)
    case Conn(p) =>
      var c := ConnectStep(s, p, true, good);
      var next := if c.next.Some? then Conn(c.next.value) else if c.ok then Return else Retry;
      Act(c.s, Owner(next, t.owns && p != Let), c.spawned)
    case Retry => Act(s, t.(owner := if s.closing || !good then Return else ConnQueue), None)
    case Return => Act(if t.owns then s.(reconnecting := false) else s, t.(owner := Over), None)
    case Over => Act(s, t, None)
  }

  /** What goroutine `i` does next. `idle` is whether all workers were joined, `good` what the network, a
      timer or a socket decides. A goroutine that has to wait stays where it is. */
  function Do(s: Shared, i: nat, t: Thread, idle: bool, good: bool): Act {
    match t
    case Caller(_) => CallerStep(s, t)
    case Worker(_) => WorkerStep(s, t, good)
    case Closer(_) => CloserStep(s, i, t, idle)
    case Initial(_) => InitialStep(s, t, good)
    case Owner(_, _) => OwnerStep(s, i, t, idle, good)
  }

  function Taken(n: Net, i: nat, a: Act): Net
    requires i < |n.threads|
  {
    Net(a.s, n.threads[i := a.t] + if a.spawned.Some? then [a.spawned.value] else [])
  }

  datatype Event = Turn(i: nat, good: bool) | Reconnect | Close

  /** Goroutines take turns in any order, and more callers of Reconnect and Close arrive at any time. */
  ghost predicate Next(n: Net, e: Event, x: Net) {
    match e
    case Turn(i, good) => i < |n.threads| && x == Taken(n, i, Do(n.s, i, n.threads[i], NoWorkers(n.threads), good))
    case Reconnect => x == n.(threads := n.threads + [Caller(Some(Look))])
    case Close => x == n.(threads := n.threads + [Closer(Flag)])
  }

  // ----- What every interleaving keeps -----

  /** Where in connect a goroutine is, holding the lock. */
  function Connecting(t: Thread): Option<Place> {
    if t.Initial? then t.first
    else if t.Owner? && t.owner.Conn? then Some(t.owner.place)
    else None
  }

  predicate Locked(t: Thread) {
    Connecting(t).Some? || (t.Closer? && t.closer == Join) || (t.Owner? && t.owner == DiscJoin)
  }

  /** This goroutine owns reconnection. */
  predicate Owns(t: Thread) {
    t.Owner? && t.owner != Over && (t.owns || t.owner == Conn(Hand))
  }

  /** Before the first new worker, after the disconnect that joined the old ones. */
  predicate Alone(t: Thread) {
    || (t.Owner? && (t.owner == ConnQueue || t.owner == Retry))
    || (Connecting(t).Some? && (var p := Connecting(t).value; p.First? || p.Dial? || p.Second? || p.Clear?))
  }

  /** Between the first new worker and the start event. */
  predicate Starting(t: Thread) {
    Connecting(t).Some? && (var p := Connecting(t).value; p.Spawn? || p.Let? || p.Hand? || p.Start?)
  }

  predicate Unsignalled(t: Thread) {
    Connecting(t).Some? && !Connecting(t).value.First? && !Connecting(t).value.Unlock?
  }

  /** Passed the last look at the closing flag, and will still start workers. */
  predicate Committed(t: Thread) {
    Connecting(t).Some? && (Connecting(t).value.Clear? || Connecting(t).value.Spawn?)
  }

  /** What the owner's own variable says at each place. */
  predicate Variable(t: Thread) {
    && (t.Owner? ==>
          && (t.owner == Conn(Hand) || t.owner == Conn(Start) || t.owner == Conn(Unlock) ==> !t.owns)
          && (t.owner.Disc? || t.owner.DiscQueue? || t.owner.DiscJoin? || t.owner.ConnQueue? || t.owner.Retry? ==> t.owns)
          && (t.owner.Conn? && !t.owner.place.Hand? && !t.owner.place.Start? && !t.owner.place.Unlock? ==> t.owns))
    && (t.Initial? && t.first.Some? ==> !t.first.value.Let? && !t.first.value.Hand?)
  }

  predicate ThreadOk(s: Shared, i: nat, t: Thread) {
    && Variable(t)
    && (Locked(t) <==> s.lock == Some(i))
    && (Owns(t) ==> s.reconnecting)
    && (Unsignalled(t) ==> !s.started)
    && (t.Closer? && t.closer != Flag ==> s.closing)
  }

  /** Two different goroutines do not conflict. */
  predicate PairOk(a: Thread, b: Thread) {
    && !(Owns(a) && Owns(b))
    && (Alone(a) ==> !Alive(b) && (b.Initial? ==> b.first.None?))
    && (Starting(a) && Alive(b) ==> b.worker == Waiting)
    && (a == Closer(Closed) ==> !Alive(b) && !Committed(b))
  }

  predicate Apart(a: Thread, b: Thread) {
    PairOk(a, b) && PairOk(b, a)
  }

  ghost predicate Safe(n: Net) {
    && (n.s.lock.Some? ==> n.s.lock.value < |n.threads|)
    && (n.s.reconnecting ==> exists i | 0 <= i < |n.threads| :: Owns(n.threads[i]))
    && (forall i | 0 <= i < |n.threads| :: ThreadOk(n.s, i, n.threads[i]))
    && (forall i, j | 0 <= i < j < |n.threads| :: Apart(n.threads[i], n.threads[j]))
  }

  // ----- One step -----

  /** One step of connect, as others see it. */
  lemma ConnectShared(s: Shared, p: Place, owner: bool, good: bool)
    ensures var c := ConnectStep(s, p, owner, good);
      && c.s.lock == (if c.next.Some? then s.lock else None) && c.s.closing == s.closing
      && c.s.reconnecting == (s.reconnecting && p != Hand)
      && c.s.started == (if p == Start then true else if p == First && !s.closing then false else s.started)
  {
  }

  lemma ConnectPlaces(s: Shared, p: Place, owner: bool, good: bool)
    ensures var c := ConnectStep(s, p, owner, good);
      && (c.next == Some(Unlock) <==> p == Start) && c.next != Some(First) && (c.next == Some(Hand) <==> p == Let)
      && (c.next == Some(Start) ==> p == Hand || !owner) && (c.next == Some(Let) ==> owner && p == Spawn(0))
      && (c.next.None? && c.ok <==> p == Unlock) && (p == Hand ==> c.next == Some(Start))
      && (c.spawned.Some? ==> p.Spawn? && c.next.Some? && c.next.value.Spawn? && c.spawned == Some(Worker(Waiting)))
  {
  }

  lemma OwnerSelf(s: Shared, i: nat, t: Thread, idle: bool, good: bool)
    requires ThreadOk(s, i, t) && t.Owner?
    ensures ThreadOk(OwnerStep(s, i, t, idle, good).s, i, OwnerStep(s, i, t, idle, good).t)
  {
    if t.owner.Conn? {
      ConnectShared(s, t.owner.place, true, good);
      ConnectPlaces(s, t.owner.place, true, good);
    }
  }

  lemma InitialSelf(s: Shared, i: nat, t: Thread, good: bool)
    requires ThreadOk(s, i, t) && t.Initial?
    ensures ThreadOk(InitialStep(s, t, good).s, i, InitialStep(s, t, good).t)
  {
    if t.first.Some? {
      ConnectShared(s, t.first.value, false, good);
      ConnectPlaces(s, t.first.value, false, good);
    }
  }

  lemma ActSelf(s: Shared, i: nat, t: Thread, idle: bool, good: bool)
    requires ThreadOk(s, i, t)
    ensures ThreadOk(Do(s, i, t, idle, good).s, i, Do(s, i, t, idle, good).t)
  {
    match t
    case Owner(_, _) => OwnerSelf(s, i, t, idle, good);
    case Initial(_) => InitialSelf(s, i, t, good);
    case _ =>
  }

  /** What a step does to the state others rely on: the lock passes only through it, only an owner
      clears the reconnect flag, only the lock holder signals the start, and closing is for good. */
  ghost predicate Considerate(s: Shared, i: nat, t: Thread, a: Act, k: nat) {
    && (k != i ==> (a.s.lock == Some(k) <==> s.lock == Some(k)))
    && (s.reconnecting && !a.s.reconnecting ==> Owns(t) && !Owns(a.t))
    && (!s.started && a.s.started ==> Locked(t))
    && (s.closing ==> a.s.closing)
  }

  lemma OwnerShared(s: Shared, i: nat, t: Thread, idle: bool, good: bool, k: nat)
    requires ThreadOk(s, i, t) && t.Owner?
    ensures Considerate(s, i, t, OwnerStep(s, i, t, idle, good), k)
  {
    if t.owner.Conn? {
      ConnectShared(s, t.owner.place, true, good);
      ConnectPlaces(s, t.owner.place, true, good);
    }
  }

  lemma ActShared(s: Shared, i: nat, t: Thread, idle: bool, good: bool, k: nat)
    requires ThreadOk(s, i, t)
    ensures Considerate(s, i, t, Do(s, i, t, idle, good), k)
  {
    match t
    case Owner(_, _) => OwnerShared(s, i, t, idle, good, k);
    case Initial(p) => if p.Some? { ConnectShared(s, p.value, false, good); }
    case _ =>
  }

  lemma ActOther(s: Shared, i: nat, t: Thread, idle: bool, good: bool, k: nat, u: Thread)
    requires ThreadOk(s, i, t) && ThreadOk(s, k, u) && i != k && Apart(t, u)
    ensures ThreadOk(Do(s, i, t, idle, good).s, k, u)
  {
    ActShared(s, i, t, idle, good, k);
  }

  lemma OwnerPairOn(s: Shared, i: nat, t: Thread, idle: bool, good: bool, k: nat, u: Thread)
    requires t.Owner? && ThreadOk(s, i, t) && ThreadOk(s, k, u) && i != k && Apart(t, u) && (idle ==> !Alive(u))
    ensures PairOk(OwnerStep(s, i, t, idle, good).t, u)
  {
  }

  lemma CloserPairOn(s: Shared, i: nat, t: Thread, idle: bool, k: nat, u: Thread)
    requires t.Closer? && ThreadOk(s, i, t) && ThreadOk(s, k, u) && i != k && Apart(t, u) && (idle ==> !Alive(u))
    ensures PairOk(CloserStep(s, i, t, idle).t, u)
  {
  }

  lemma ActPairOn(s: Shared, i: nat, t: Thread, idle: bool, good: bool, k: nat, u: Thread)
    requires ThreadOk(s, i, t) && ThreadOk(s, k, u) && i != k && Apart(t, u) && (idle ==> !Alive(u))
    ensures PairOk(Do(s, i, t, idle, good).t, u)
  {
    match t
    case Owner(_, _) => OwnerPairOn(s, i, t, idle, good, k, u);
    case Closer(_) => CloserPairOn(s, i, t, idle, k, u);
    case _ =>
  }

  lemma OwnerPairOff(s: Shared, i: nat, t: Thread, idle: bool, good: bool, k: nat, u: Thread)
    requires t.Owner? && ThreadOk(s, i, t) && ThreadOk(s, k, u) && i != k && Apart(t, u)
    ensures PairOk(u, OwnerStep(s, i, t, idle, good).t)
  {
  }

  lemma ActPairOff(s: Shared, i: nat, t: Thread, idle: bool, good: bool, k: nat, u: Thread)
    requires ThreadOk(s, i, t) && ThreadOk(s, k, u) && i != k && Apart(t, u)
    ensures PairOk(u, Do(s, i, t, idle, good).t)
  {
    if t.Owner? { OwnerPairOff(s, i, t, idle, good, k, u); }
  }

  lemma ActSpawns(s: Shared, i: nat, t: Thread, idle: bool, good: bool, m: nat)
    requires ThreadOk(s, i, t) && m != i && s.lock != Some(m) && Do(s, i, t, idle, good).spawned.Some?
    ensures var a := Do(s, i, t, idle, good); ThreadOk(a.s, m, a.spawned.value) && Apart(a.t, a.spawned.value)
  {
    SpawnedBy(s, i, t, idle, good);
    ActShared(s, i, t, idle, good, m);
  }

  /** A goroutine is started by the swap, which makes it the owner, or by connect, as a waiting worker. */
  lemma SpawnedBy(s: Shared, i: nat, t: Thread, idle: bool, good: bool)
    requires ThreadOk(s, i, t) && Do(s, i, t, idle, good).spawned.Some?
    ensures var a := Do(s, i, t, idle, good);
      if t.Caller? || t.Worker? then
        !s.reconnecting && a.s.reconnecting && a.spawned == Some(Owner(Disc, true))
        && (a.t == Caller(None) || a.t == Worker(Leaving)) && a.s == s.(reconnecting := true)
      else
        a.spawned == Some(Worker(Waiting)) && Committed(t) && Starting(a.t) && a.s == s
        && ((t.Owner? && a.t.Owner?) || (t.Initial? && a.t.Initial?))
  {
    if t.Owner? { OwnerSpawns(s, i, t, idle, good); }
  }

  lemma OwnerSpawns(s: Shared, i: nat, t: Thread, idle: bool, good: bool)
    requires t.Owner? && OwnerStep(s, i, t, idle, good).spawned.Some?
    ensures var a := OwnerStep(s, i, t, idle, good);
      a.spawned == Some(Worker(Waiting)) && Committed(t) && Starting(a.t) && a.s == s && a.t.Owner?
  {
  }

  lemma ActSpawnsApart(s: Shared, i: nat, t: Thread, idle: bool, good: bool, k: nat, u: Thread)
    requires ThreadOk(s, i, t) && ThreadOk(s, k, u) && i != k && Apart(t, u) && Do(s, i, t, idle, good).spawned.Some?
    ensures Apart(u, Do(s, i, t, idle, good).spawned.value)
  {
    SpawnedBy(s, i, t, idle, good);
  }

  lemma Paired(n: Net, i: nat, k: nat)
    requires Safe(n) && i < |n.threads| && k < |n.threads| && i != k
    ensures Apart(n.threads[i], n.threads[k])
  {
    if i < k { assert Apart(n.threads[i], n.threads[k]); } else { assert Apart(n.threads[k], n.threads[i]); }
  }

  lemma TurnThreads(n: Net, i: nat, good: bool, x: Net, k: nat)
    requires Safe(n) && Next(n, Turn(i, good), x) && k < |x.threads|
    ensures ThreadOk(x.s, k, x.threads[k])
  {
    var idle := NoWorkers(n.threads);
    if k == i {
      ActSelf(n.s, i, n.threads[i], idle, good);
    } else if k < |n.threads| {
      Paired(n, i, k);
      ActOther(n.s, i, n.threads[i], idle, good, k, n.threads[k]);
    } else {
      ActSpawns(n.s, i, n.threads[i], idle, good, k);
    }
  }

  lemma TurnWith(n: Net, i: nat, good: bool, x: Net, k: nat)
    requires Safe(n) && Next(n, Turn(i, good), x) && k < |x.threads| && k != i
    ensures Apart(x.threads[i], x.threads[k])
  {
    var idle := NoWorkers(n.threads);
    if k < |n.threads| {
      Paired(n, i, k);
      ActPairOn(n.s, i, n.threads[i], idle, good, k, n.threads[k]);
      ActPairOff(n.s, i, n.threads[i], idle, good, k, n.threads[k]);
    } else {
      ActSpawns(n.s, i, n.threads[i], idle, good, k);
    }
  }

  lemma TurnPairs(n: Net, i: nat, good: bool, x: Net, j: nat, k: nat)
    requires Safe(n) && Next(n, Turn(i, good), x) && j < k < |x.threads|
    ensures Apart(x.threads[j], x.threads[k])
  {
    if j == i {
      TurnWith(n, i, good, x, k);
    } else if k == i {
      TurnWith(n, i, good, x, j);
    } else if k < |n.threads| {
      Paired(n, j, k);
    } else {
      Paired(n, i, j);
      ActSpawnsApart(n.s, i, n.threads[i], NoWorkers(n.threads), good, j, n.threads[j]);
    }
  }

  lemma StaysOwner(s: Shared, i: nat, t: Thread, idle: bool, good: bool)
    requires ThreadOk(s, i, t)
    ensures var a := Do(s, i, t, idle, good);
      && (Owns(t) && a.s.reconnecting ==> Owns(a.t))
      && (!s.reconnecting && a.s.reconnecting ==> a.spawned == Some(Owner(Disc, true)))
  {
    if t.Owner? { OwnerStays(s, i, t, idle, good); }
  }

  lemma OwnerStays(s: Shared, i: nat, t: Thread, idle: bool, good: bool)
    requires t.Owner? && ThreadOk(s, i, t)
    ensures var a := OwnerStep(s, i, t, idle, good);
      && (Owns(t) && a.s.reconnecting ==> Owns(a.t))
      && (!s.reconnecting && a.s.reconnecting ==> a.spawned == Some(Owner(Disc, true)))
  {
  }

  lemma TurnOwner(n: Net, i: nat, good: bool, x: Net)
    requires Safe(n) && Next(n, Turn(i, good), x) && x.s.reconnecting
    ensures exists k | 0 <= k < |x.threads| :: Owns(x.threads[k])
  {
    StaysOwner(n.s, i, n.threads[i], NoWorkers(n.threads), good);
    if n.s.reconnecting {
      var k :| 0 <= k < |n.threads| && Owns(n.threads[k]);
      assert Owns(x.threads[k]);
    } else {
      assert Owns(x.threads[|n.threads|]);
    }
  }

  lemma TurnLock(n: Net, i: nat, good: bool, x: Net)
    requires Safe(n) && Next(n, Turn(i, good), x)
    ensures x.s.lock.Some? ==> x.s.lock.value < |x.threads|
  {
    if x.s.lock.Some? { ActShared(n.s, i, n.threads[i], NoWorkers(n.threads), good, x.s.lock.value); }
  }

  lemma TurnSafe(n: Net, i: nat, good: bool, x: Net)
    requires Safe(n) && Next(n, Turn(i, good), x)
    ensures Safe(x)
  {
    forall k | 0 <= k < |x.threads| ensures ThreadOk(x.s, k, x.threads[k]) { TurnThreads(n, i, good, x, k); }
    forall j, k | 0 <= j < k < |x.threads| ensures Apart(x.threads[j], x.threads[k]) { TurnPairs(n, i, good, x, j, k); }
    if x.s.reconnecting { TurnOwner(n, i, good, x); }
    TurnLock(n, i, good, x);
  }

  /** A new caller of Reconnect or Close disturbs nobody. */
  lemma ArrivalSafe(n: Net, t: Thread, x: Net)
    requires Safe(n) && (t == Caller(Some(Look)) || t == Closer(Flag)) && x == n.(threads := n.threads + [t])
    ensures Safe(x)
  {
    if x.s.reconnecting {
      var k :| 0 <= k < |n.threads| && Owns(n.threads[k]);
      assert Owns(x.threads[k]);
    }
    forall i, j | 0 <= i < j < |x.threads| ensures Apart(x.threads[i], x.threads[j]) {
      if j < |n.threads| { Paired(n, i, j); }
    }
  }

  lemma EventSafe(n: Net, e: Event, x: Net)
    requires Safe(n) && Next(n, e, x)
    ensures Safe(x)
  {
    match e
    case Turn(i, good) => TurnSafe(n, i, good, x);
    case Reconnect => ArrivalSafe(n, Caller(Some(Look)), x);
    case Close => ArrivalSafe(n, Closer(Flag), x);
  }

  // ----- What is done when nobody is in the way -----

  /** What a goroutine leaves behind: shared state, its own state, and the goroutines it started. */
  datatype Stretch = Stretch(s: Shared, t: Thread, started: seq<Thread>)

  /** A goroutine takes `k` turns in a row, with all workers joined and a network that answers. */
  function Undisturbed(s: Shared, i: nat, t: Thread, k: nat): Stretch
    decreases k
  {
    if k == 0 then Stretch(s, t, [])
    else
      var a := Do(s, i, t, true, true);
      var rest := Undisturbed(a.s, i, a.t, k - 1);
      rest.(started := (if a.spawned.Some? then [a.spawned.value] else []) + rest.started)
  }

  /** The first of `k` turns. */
  lemma FirstTurn(s: Shared, i: nat, t: Thread, k: nat, a: Act)
    requires k > 0 && a == Do(s, i, t, true, true)
    ensures Undisturbed(s, i, t, k) == Stretch(Undisturbed(a.s, i, a.t, k - 1).s, Undisturbed(a.s, i, a.t, k - 1).t,
                                               (if a.spawned.Some? then [a.spawned.value] else [])
                                               + Undisturbed(a.s, i, a.t, k - 1).started)
  {
  }

  lemma HandsBack(s: Shared, i: nat)
    requires s.lock == Some(i)
    ensures Undisturbed(s, i, Owner(Conn(Spawn(0)), true), 5)
         == Stretch(s.(reconnecting := false, started := true, lock := None), Owner(Return, false), [])
  {
    var x := s.(reconnecting := false);
    var y := x.(started := true);
    FirstTurn(y, i, Owner(Conn(Unlock), false), 1, Act(y.(lock := None), Owner(Return, false), None));
    FirstTurn(x, i, Owner(Conn(Start), false), 2, Act(y, Owner(Conn(Unlock), false), None));
    FirstTurn(s, i, Owner(Conn(Hand), false), 3, Act(x, Owner(Conn(Start), false), None));
    FirstTurn(s, i, Owner(Conn(Let), true), 4, Act(s, Owner(Conn(Hand), false), None));
    FirstTurn(s, i, Owner(Conn(Spawn(0)), true), 5, Act(s, Owner(Conn(Let), true), None));
  }

  lemma StartsThree(s: Shared, i: nat)
    requires s.lock == Some(i)
    ensures Undisturbed(s, i, Owner(Conn(Spawn(3)), true), 8)
         == Stretch(s.(reconnecting := false, started := true, lock := None), Owner(Return, false),
                    [Worker(Waiting), Worker(Waiting), Worker(Waiting)])
  {
    HandsBack(s, i);
    FirstTurn(s, i, Owner(Conn(Spawn(1)), true), 6, Act(s, Owner(Conn(Spawn(0)), true), Some(Worker(Waiting))));
    FirstTurn(s, i, Owner(Conn(Spawn(2)), true), 7, Act(s, Owner(Conn(Spawn(1)), true), Some(Worker(Waiting))));
    FirstTurn(s, i, Owner(Conn(Spawn(3)), true), 8, Act(s, Owner(Conn(Spawn(2)), true), Some(Worker(Waiting))));
  }

  /** A reconnect that nobody is in the way of takes the lock, starts exactly three workers with the stop
      event cleared, gives ownership back, sets the start event and lets go of the lock. */
  lemma ReconnectStarts(s: Shared, i: nat)
    requires s.lock == None && !s.closing
    ensures Undisturbed(s, i, Owner(ConnQueue, true), 13)
         == Stretch(s.(stop := false, reconnecting := false, started := true), Owner(Return, false),
                    [Worker(Waiting), Worker(Waiting), Worker(Waiting)])
  {
    var x := s.(lock := Some(i));
    var y := x.(started := false);
    var z := y.(stop := false);
    StartsThree(z, i);
    FirstTurn(y, i, Owner(Conn(Clear), true), 9, Act(z, Owner(Conn(Spawn(3)), true), None));
    FirstTurn(y, i, Owner(Conn(Second), true), 10, Act(y, Owner(Conn(Clear), true), None));
    FirstTurn(y, i, Owner(Conn(Dial), true), 11, Act(y, Owner(Conn(Second), true), None));
    FirstTurn(x, i, Owner(Conn(First), true), 12, Act(y, Owner(Conn(Dial), true), None));
    FirstTurn(s, i, Owner(ConnQueue, true), 13, Act(x, Owner(Conn(First), true), None));
  }

  /** An owner stops the old workers and waits for them before it connects, and it gives up without having
      connected exactly if the client closes or its wait for the next attempt is cut short. */
  lemma OwnerInsists(s: Shared, i: nat, idle: bool, good: bool)
    ensures OwnerStep(s, i, Owner(Disc, true), idle, good) == Act(s.(stop := true), Owner(DiscQueue, true), None)
    ensures OwnerStep(s, i, Owner(DiscJoin, true), idle, good).t.owner == (if idle then ConnQueue else DiscJoin)
    ensures OwnerStep(s, i, Owner(Retry, true), idle, good).t.owner == (if !s.closing && good then ConnQueue else Return)
    ensures OwnerStep(s, i, Owner(Conn(Dial), true), idle, good).t.owner == (if good then Conn(Second) else Retry)
    ensures OwnerStep(s, i, Owner(Return, true), idle, good) == Act(s.(reconnecting := false), Owner(Over, true), None)
  {
  }

  /** A Close that nobody is in the way of marks the client closing, stops its workers and returns. */
  lemma CloseReturns(s: Shared, i: nat)
    requires s.lock == None
    ensures Undisturbed(s, i, Closer(Flag), 4) == Stretch(s.(closing := true, stop := true), Closer(Closed), [])
  {
    var x := s.(closing := true);
    var y := x.(stop := true);
    FirstTurn(y.(lock := Some(i)), i, Closer(Join), 1, Act(y, Closer(Closed), None));
    FirstTurn(y, i, Closer(Queue), 2, Act(y.(lock := Some(i)), Closer(Join), None));
    FirstTurn(x, i, Closer(Stop), 3, Act(y, Closer(Queue), None));
    FirstTurn(s, i, Closer(Flag), 4, Act(x, Closer(Stop), None));
  }

  // ----- Every run -----

  ghost predicate Run(states: seq<Net>, events: seq<Event>) {
    && |states| == |events| + 1 && states[0] == NewClient()
    && forall i | 0 <= i < |events| :: Next(states[i], events[i], states[i + 1])
  }

  lemma {:induction false} SafeAlways(states: seq<Net>, events: seq<Event>, i: nat)
    requires Run(states, events) && i < |states|
    ensures Safe(states[i])
  {
    if i > 0 {
      SafeAlways(states, events, i - 1);
      EventSafe(states[i - 1], events[i - 1], states[i]);
    }
  }

  /** The reconnect flag is set exactly while one goroutine owns reconnection, and never two do. */
  lemma OneOwner(states: seq<Net>, events: seq<Event>, i: nat, j: nat, k: nat)
    requires Run(states, events) && i < |states| && j < |states[i].threads| && k < |states[i].threads|
    ensures states[i].s.reconnecting <==> exists m | 0 <= m < |states[i].threads| :: Owns(states[i].threads[m])
    ensures Owns(states[i].threads[j]) && Owns(states[i].threads[k]) ==> j == k
  {
    SafeAlways(states, events, i);
    if j != k { Paired(states[i], j, k); }
  }

  /** Nobody else's step, and in particular no returning earlier owner, takes ownership away. */
  lemma OwnerUndisturbed(states: seq<Net>, events: seq<Event>, i: nat, k: nat)
    requires Run(states, events) && i < |events| && k < |states[i].threads| && Owns(states[i].threads[k])
    requires events[i].Turn? ==> events[i].i != k
    ensures states[i + 1].s.reconnecting && k < |states[i + 1].threads| && Owns(states[i + 1].threads[k])
  {
    SafeAlways(states, events, i);
    var n, e := states[i], events[i];
    assert Next(n, e, states[i + 1]);
    if e.Turn? {
      Paired(n, e.i, k);
      ActShared(n.s, e.i, n.threads[e.i], NoWorkers(n.threads), e.good, k);
    }
  }

  /** From its last look at the closing flag until ownership is handed back, a connect has no worker that
      could ask for the next reconnect: they all wait for the start event, which is not set. */
  lemma NoEarlyRequest(states: seq<Net>, events: seq<Event>, i: nat, j: nat, k: nat)
    requires Run(states, events) && i < |states| && j < |states[i].threads| && k < |states[i].threads|
    requires var p := Connecting(states[i].threads[j]);
      p.Some? && (p.value.Clear? || p.value.Spawn? || p.value.Let? || p.value.Hand?)
    ensures !states[i].s.started && (Alive(states[i].threads[k]) ==> states[i].threads[k].worker == Waiting)
  {
    SafeAlways(states, events, i);
    assert ThreadOk(states[i].s, j, states[i].threads[j]);
    if j != k { Paired(states[i], j, k); }
  }

  lemma {:induction false} ClosedStays(states: seq<Net>, events: seq<Event>, i: nat, j: nat, c: nat)
    requires Run(states, events) && i <= j < |states| && c < |states[i].threads| && states[i].threads[c] == Closer(Closed)
    ensures c < |states[j].threads| && states[j].threads[c] == Closer(Closed)
  {
    if i < j {
      ClosedStays(states, events, i, j - 1, c);
      assert Next(states[j - 1], events[j - 1], states[j]);
    }
  }

  /** Once a Close has returned, no worker runs, and none is ever started again. */
  lemma NoResurrection(states: seq<Net>, events: seq<Event>, i: nat, j: nat, c: nat)
    requires Run(states, events) && i <= j < |states| && c < |states[i].threads| && states[i].threads[c] == Closer(Closed)
    ensures NoWorkers(states[j].threads)
  {
    ClosedStays(states, events, i, j, c);
    SafeAlways(states, events, j);
    forall k | 0 <= k < |states[j].threads| ensures !Alive(states[j].threads[k]) {
      if k != c { Paired(states[j], c, k); }
    }
  }
}
