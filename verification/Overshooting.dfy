/** At most one overshooting message per client, on any budget: exactly when it holds over a run, and runs
    in which it always does. */
module Overshooting {
  import opened Words
  import opened Tables
  import opened BudgetSpec
  import opened WindowSpec
  import WL = WindowLaws
  import opened WindowRuns
  import opened WindowTheorems
  import opened Clients
  import opened Escapes

  ghost predicate Tidy(c: Client) {
    WL.Inv(c.w) && Carried(c)
  }

  ghost predicate Orderly(s: System) {
    && (forall c | 0 <= c < |s.clients| :: Tidy(s.clients[c]))
    && (forall i | 0 <= i < |s.adders| :: s.adders[i].r.size > 0)
  }

  // ----- One step -----

  /** `x` is client `c` after request `r` was admitted. */
  ghost predicate Grows(c: Client, r: Request, overshot: bool, q: Pool, x: Client) {
    && c.w.ackEvery > 0 && c.w.running && (overshot ==> !HeldFlagged(c.w))
    && !RefusedLocally(c.w, r.size)
    && x == Client(Admitted(c.w, r, overshot, q), c.group, c.over + if overshot then {c.w.next} else {})
  }

  /** An attempt leaves its client as it was, or adds its message to it. */
  lemma AttemptGrows(s: System, i: nat, t: System)
    requires Stepped(s, Attempt(i), t)
    ensures var c, x := s.clients[s.adders[i].client], t.clients[s.adders[i].client];
      if t.adders[i].stage == Gone then Grows(c, s.adders[i].r, Overshoots(s, Attempt(i)), t.pool, x)
      else x == c && !Overshoots(s, Attempt(i))
  {
    var a, c := s.adders[i], s.clients[s.adders[i].client];
    if !RefusedLocally(c.w, a.r.size) {
      OvershotForced(s.pool, a.r.size, !HeldFlagged(c.w), c.group, a.waiter);
    }
  }

  /** Only a forced request overshoots. */
  lemma OvershotForced(p: Pool, n: nat, force: bool, g: nat, w: Option<nat>)
    requires Known(p, g, w)
    ensures Ask(p, n, force, g, w).overshot ==> force && Ask(p, n, force, g, w).ok
  {
  }

  lemma AdmittedInv(w: Window, r: Request, overshot: bool, q: Pool)
    requires WL.Inv(w) && w.running && Available(w) && r.size > 0
    ensures WL.Inv(Admitted(w, r, overshot, q))
  {
    WL.AdmitKeeps(w, r, Over(w, r.size) || overshot, Step(w, r.size, Some((q.used, q.total))), overshot && q.fair);
  }

  lemma GrowsTidy(c: Client, r: Request, overshot: bool, q: Pool, x: Client)
    requires Tidy(c) && r.size > 0 && Grows(c, r, overshot, q, x)
    ensures Tidy(x) && c.w.next !in c.over && x.w.closed == c.w.closed
  {
    AdmittedInv(c.w, r, overshot, q);
    forall sn | sn in c.over ensures !Ended(c.w, sn) && !Ended(x.w, sn) { assert sn in StillOver(c.over, c.w); }
    assert Ended(c.w, c.w.next) && !Ended(x.w, c.w.next);
  }

  lemma StepOrderly(s: System, m: Move, t: System)
    requires Orderly(s) && Stepped(s, m, t)
    ensures Orderly(t)
  {
    match m
    case Operate(c, op) =>
      assert Tidy(s.clients[c]);
      ApplyKeeps(s.clients[c].w, op);
    case Attempt(i) =>
      var ci := s.adders[i].client;
      assert Tidy(s.clients[ci]);
      AttemptGrows(s, i, t);
      if t.adders[i].stage == Gone {
        GrowsTidy(s.clients[ci], s.adders[i].r, Overshoots(s, m), t.pool, t.clients[ci]);
      }
    case Open(key, maxBytes) => assert WL.Inv(Fresh(true, maxBytes));
    case _ =>
  }

  lemma {:induction false} OrderlyAlways(states: seq<System>, moves: seq<Move>, i: nat)
    requires Steps(states, moves) && Orderly(states[0]) && i < |states|
    ensures Orderly(states[i])
  {
    if i > 0 {
      OrderlyAlways(states, moves, i - 1);
      StepOrderly(states[i - 1], moves[i - 1], states[i]);
    }
  }

  // ----- At most one per client -----

  ghost predicate OnceEach(s: System) {
    forall c | 0 <= c < |s.clients| :: |s.clients[c].over| <= 1
  }

  lemma {:induction false} SubsetSize(a: set<u64>, b: set<u64>)
    requires a <= b
    ensures |a| <= |b|
    decreases a
  {
    if a != {} {
      var x :| x in a;
      SubsetSize(a - {x}, b - {x});
    }
  }

  lemma GrownSize(c: Client, r: Request, overshot: bool, q: Pool, x: Client)
    requires Tidy(c) && r.size > 0 && Grows(c, r, overshot, q, x) && |c.over| <= 1
    ensures |x.over| <= 1 <==> !(overshot && c.over != {})
  {
    GrowsTidy(c, r, overshot, q, x);
    if overshot {
      assert |c.over + {c.w.next}| == |c.over| + 1;
      assert c.over == {} <==> |c.over| == 0;
    } else {
      assert x.over == c.over;
    }
  }

  /** One step keeps it exactly if it is not an overshooting attempt of a client that holds such a message. */
  lemma StepOnceIff(s: System, m: Move, t: System)
    requires Orderly(s) && Stepped(s, m, t) && OnceEach(s)
    ensures OnceEach(t) <==> !Second(s, m)
  {
    match m
    case Operate(c, op) => SubsetSize(t.clients[c].over, s.clients[c].over);
    case Attempt(i) =>
      var ci := s.adders[i].client;
      assert Tidy(s.clients[ci]) && |s.clients[ci].over| <= 1;
      AttemptGrows(s, i, t);
      if t.adders[i].stage == Gone {
        GrownSize(s.clients[ci], s.adders[i].r, Overshoots(s, m), t.pool, t.clients[ci]);
      }
    case _ =>
  }

  ghost predicate OnceSoFar(states: seq<System>, i: nat)
    requires i < |states|
  {
    forall j | 0 <= j <= i :: OnceEach(states[j])
  }

  lemma OnceSoFarIff(states: seq<System>, moves: seq<Move>, i: nat)
    requires Steps(states, moves) && Begins(states[0]) && i < |moves|
    ensures OnceSoFar(states, i + 1) <==> OnceSoFar(states, i) && !Second(states[i], moves[i])
  {
    OrderlyAlways(states, moves, i);
    if OnceSoFar(states, i) { StepOnceIff(states[i], moves[i], states[i + 1]); }
  }

  /** In every run on any budget: each client holds at most one overshooting message all along exactly if no
      attempt overshoots while its client holds one. */
  lemma OneOverIff(states: seq<System>, moves: seq<Move>, i: nat)
    requires Steps(states, moves) && Begins(states[0]) && i < |states|
    ensures OnceSoFar(states, i) <==> forall j | 0 <= j < i :: !Second(states[j], moves[j])
  {
    var once := seq(|states|, j requires 0 <= j < |states| => OnceSoFar(states, j));
    var twice := seq(|moves|, j requires 0 <= j < |moves| => Second(states[j], moves[j]));
    forall j | 0 <= j < |moves| ensures once[j + 1] == (once[j] && !twice[j]) { OnceSoFarIff(states, moves, j); }
    HoldsUntil(once, twice, i);
    assert forall j | 0 <= j < i :: twice[j] == Second(states[j], moves[j]);
  }

  // ----- Runs that never overshoot twice -----

  ghost predicate AllAsk(s: System) {
    Orderly(s) && Numbered(s) && forall c | 0 <= c < |s.clients| :: OverAsks(s.clients[c])
  }

  lemma GrowsAsks(c: Client, r: Request, overshot: bool, q: Pool, x: Client)
    requires Tidy(c) && Plain(c.w) && Plain(x.w) && OverAsks(c) && r.size > 0 && Grows(c, r, overshot, q, x)
    ensures OverAsks(x) && (overshot ==> c.over == {})
  {
    forall sn | sn in c.over ensures sn < c.w.next { assert sn in StillOver(c.over, c.w); }
  }

  lemma StepAsks(s: System, m: Move, t: System)
    requires AllAsk(s) && Stepped(s, m, t) && SafeMove(s, m) && Numbered(t)
    ensures AllAsk(t) && !Second(s, m)
  {
    StepOrderly(s, m, t);
    match m
    case Operate(c, op) =>
      assert Tidy(s.clients[c]) && Plain(s.clients[c].w);
      OverKept(s.clients[c], op, t.clients[c]);
    case Attempt(i) =>
      var ci := s.adders[i].client;
      assert Tidy(s.clients[ci]) && Plain(s.clients[ci].w) && Plain(t.clients[ci].w);
      AttemptGrows(s, i, t);
      if t.adders[i].stage == Gone {
        GrowsAsks(s.clients[ci], s.adders[i].r, Overshoots(s, m), t.pool, t.clients[ci]);
      }
    case _ =>
  }

  /** A run whose numbers have not wrapped and whose resets are safe. */
  ghost predicate SafeRun(states: seq<System>, moves: seq<Move>) {
    && Steps(states, moves)
    && (forall j | 0 <= j < |states| :: Numbered(states[j]))
    && (forall j | 0 <= j < |moves| :: SafeMove(states[j], moves[j]))
  }

  /** In a safe run nobody overshoots twice, and every overshooting message has a request at or after it. */
  lemma {:induction false} SafeRunsOnce(states: seq<System>, moves: seq<Move>, i: nat)
    requires SafeRun(states, moves) && Begins(states[0]) && i < |states|
    ensures AllAsk(states[i]) && forall j | 0 <= j < i :: !Second(states[j], moves[j])
  {
    if i > 0 {
      SafeRunsOnce(states, moves, i - 1);
      StepAsks(states[i - 1], moves[i - 1], states[i]);
    }
  }

  // ----- Runs without transmission limits -----

  ghost predicate NoLimits(es: seq<Entry>) {
    forall j | 0 <= j < |es| :: es[j].max == 0
  }

  ghost predicate Unlimited(s: System) {
    && (forall c | 0 <= c < |s.clients| :: NoLimits(s.clients[c].w.tracked))
    && (forall i | 0 <= i < |s.adders| :: Limitless(s.adders[i].r))
  }

  /** A request without a transmission limit. */
  predicate Limitless(r: Request) {
    r.track.Some? ==> r.track.value == 0
  }

  lemma OpUnlimited(w: Window, op: Op)
    requires WL.Inv(w) && Enabled(w, op) && !op.Add? && NoLimits(w.tracked)
    ensures NoLimits(Apply(w, op).tracked)
  {
    match op
    case Confirmed(sn, backing) => AckUnlimited(w, AckCount(w, sn, backing));
    case Deliver => WL.NextExact(w);
    case Restart => HeadUnlimited(RetireSpent(w.(deliver := 0), |w.tracked|));
    case _ =>
  }

  lemma HeadUnlimited(w: Window)
    requires |w.slots| <= MAX_SLOTS && NoLimits(w.tracked)
    ensures NoLimits(ReleaseHead(w).tracked)
  {
  }

  lemma AckUnlimited(w: Window, k: nat)
    requires k <= |w.slots| <= MAX_SLOTS && NoLimits(w.tracked)
    ensures NoLimits(AckBy(w, k).tracked)
  {
    if k > 0 { HeadUnlimited(Remove(w, k, true)); }
  }

  lemma StepUnlimited(s: System, m: Move, t: System)
    requires Orderly(s) && Unlimited(s) && Stepped(s, m, t) && (m.Call? ==> Limitless(m.r))
    ensures Unlimited(t)
  {
    match m
    case Operate(c, op) =>
      assert Tidy(s.clients[c]) && NoLimits(s.clients[c].w.tracked);
      OpUnlimited(s.clients[c].w, op);
    case Attempt(i) =>
      var ci := s.adders[i].client;
      assert NoLimits(s.clients[ci].w.tracked) && Limitless(s.adders[i].r);
      AttemptGrows(s, i, t);
    case _ =>
  }

  lemma {:induction false} UnlimitedAlways(states: seq<System>, moves: seq<Move>, i: nat)
    requires Steps(states, moves) && Begins(states[0]) && i < |states|
    requires forall j | 0 <= j < |moves| :: moves[j].Call? ==> Limitless(moves[j].r)
    ensures Unlimited(states[i])
  {
    if i > 0 {
      UnlimitedAlways(states, moves, i - 1);
      OrderlyAlways(states, moves, i - 1);
      StepUnlimited(states[i - 1], moves[i - 1], states[i]);
    }
  }

  /** Without transmission limits every run whose numbers have not wrapped is safe, so no client ever holds
      two overshooting messages. */
  lemma UnlimitedRunsOnce(states: seq<System>, moves: seq<Move>, i: nat)
    requires Steps(states, moves) && Begins(states[0]) && i < |states|
    requires forall j | 0 <= j < |states| :: Numbered(states[j])
    requires forall j | 0 <= j < |moves| :: moves[j].Call? ==> Limitless(moves[j].r)
    ensures SafeRun(states, moves) && OnceEach(states[i])
  {
    forall j | 0 <= j < |moves| ensures SafeMove(states[j], moves[j]) {
      UnlimitedAlways(states, moves, j);
      if moves[j].Operate? && moves[j].client < |states[j].clients| {
        assert NoLimits(states[j].clients[moves[j].client].w.tracked);
        UnlimitedIsSafe(states[j].clients[moves[j].client]);
      }
    }
    SafeRunsOnce(states, moves, i);
    OneOverIff(states, moves, i);
  }
}
