/** Requests stay spaced on every shared budget. A pool of less than 16 bytes turns the pressure of a client's
    own cap off, but it holds no message, so every admission is forced and asks. */
module Spacing {
  import opened Words
  import opened Tables
  import opened BudgetSpec
  import opened WindowSpec
  import WL = WindowLaws
  import opened WindowRuns
  import opened WindowTheorems
  import opened Clients
  import WindowLedger
  import opened Overshooting
  import opened ClientLedger
  import opened Wakeups
  import opened TinyPools

  // ----- One attempt -----

  /** A fair pool of less than 16 bytes has not granted waiter `w`. */
  predicate Unfilled(p: Pool, w: Option<nat>) {
    p.fair && 0 < p.total < PRESSURE_STEPS && w.Some? && w.value < |p.waiters| ==> !p.waiters[w.value].granted
  }

  /** A pool of less than 16 bytes admits a message only by force. */
  lemma TinyPoolForces(p: Pool, n: nat, force: bool, g: nat, w: Option<nat>)
    requires Known(p, g, w) && Ask(p, n, force, g, w).ok && 0 < p.total < PRESSURE_STEPS && n >= OVERHEAD
    requires Unfilled(p, w)
    ensures Ask(p, n, force, g, w).overshot
  {
  }

  /** An admitted attempt is an admission as the client of `WindowTheorems.ClientRun` does it. */
  lemma TriedAsks(w: Window, r: Request, p: Pool, g: nat, waiter: Option<nat>, x: Window, q: Pool, kept: Option<nat>)
    requires WL.Inv(w) && w.running && w.accounting && r.size >= OVERHEAD
    requires Tried(w, r, p, g, waiter, x, q, true, kept) && Unfilled(p, waiter)
    ensures var overshot := Ask(p, r.size, !HeldFlagged(w), g, waiter).overshot;
      var op := Add(r, Over(w, r.size) || overshot, Step(w, r.size, Some((q.used, q.total))), overshot && q.fair);
      && Enabled(w, op) && x == Apply(w, op) && Permitted(w, op) && WithStep(w, op, Some((q.used, q.total)))
  {
    var force := !HeldFlagged(w);
    AskBroadcasts(p, r.size, force, g, waiter, q, Ask(p, r.size, force, g, waiter));
    if 0 < p.total < PRESSURE_STEPS { TinyPoolForces(p, r.size, force, g, waiter); }
  }

  /** So every attempt keeps requests spaced. */
  lemma TriedSpaced(w: Window, r: Request, p: Pool, g: nat, waiter: Option<nat>, x: Window, q: Pool, ok: bool,
                    kept: Option<nat>)
    requires WL.Inv(w) && w.running && w.accounting && r.size >= OVERHEAD && Spaced(w)
    requires Tried(w, r, p, g, waiter, x, q, ok, kept) && Unfilled(p, waiter)
    ensures Spaced(x)
  {
    if ok {
      TriedAsks(w, r, p, g, waiter, x, q, kept);
      var overshot := Ask(p, r.size, !HeldFlagged(w), g, waiter).overshot;
      var op := Add(r, Over(w, r.size) || overshot, Step(w, r.size, Some((q.used, q.total))), overshot && q.fair);
      SpacingKept(w, op, Some((q.used, q.total)));
    }
  }

  // ----- Every run -----

  /** Every client counts bytes and spaces its requests, and every call has a real message. */
  ghost predicate AllSpaced(s: System) {
    && (forall c | 0 <= c < |s.clients| :: s.clients[c].w.accounting && Spaced(s.clients[c].w))
    && (forall i | 0 <= i < |s.adders| :: s.adders[i].r.size >= OVERHEAD)
  }

  lemma OperatedSpaced(w: Window, op: Op)
    requires WL.Inv(w) && Enabled(w, op) && !op.Add? && w.accounting && Spaced(w)
    ensures Apply(w, op).accounting && Spaced(Apply(w, op))
  {
    OthersShrink(w, op);
    WindowLedger.ClosedKept(w, op);
  }

  lemma StepSpaced(s: System, m: Move, t: System)
    requires Orderly(s) && AllSpaced(s) && Stepped(s, m, t) && (m.Call? ==> m.r.size >= OVERHEAD)
    requires m.Attempt? ==> Unfilled(s.pool, s.adders[m.adder].waiter)
    ensures AllSpaced(t)
  {
    match m
    case Operate(c, op) => assert Tidy(s.clients[c]); OperatedSpaced(s.clients[c].w, op);
    case Attempt(i) =>
      var a, c, x := s.adders[i], s.clients[s.adders[i].client], t.clients[s.adders[i].client];
      assert Tidy(c) && c.w.accounting && Spaced(c.w);
      TriedSpaced(c.w, a.r, s.pool, c.group, a.waiter, x.w, t.pool, t.adders[i].stage == Gone, t.adders[i].waiter);
    case _ =>
  }

  /** On a fair budget that small nobody is ever granted anything. */
  lemma NeverFilled(states: seq<System>, moves: seq<Move>, i: nat, k: nat)
    requires Steps(states, moves) && Begins(states[0]) && i < |states| && k < |states[i].adders|
    requires forall j | 0 <= j < |states| :: Counting(states[j].pool)
    requires forall j | 0 <= j < |moves| :: moves[j].Call? ==> moves[j].r.size >= OVERHEAD
    ensures Unfilled(states[i].pool, states[i].adders[k].waiter)
  {
    var s := states[i];
    KindAlways(states, moves, i);
    if s.pool.fair && 0 < s.pool.total < PRESSURE_STEPS && s.adders[k].waiter.Some? {
      TightAlways(states, moves, i);
      assert AdderOk(s, s.adders[k]) && Hungry(s.pool.waiters[s.adders[k].waiter.value]);
    }
  }

  /** In every run on every budget, of any kind and any total, requests stay spaced. */
  lemma {:induction false} SpacedAlways(states: seq<System>, moves: seq<Move>, i: nat)
    requires Steps(states, moves) && Begins(states[0]) && i < |states|
    requires forall j | 0 <= j < |states| :: Counting(states[j].pool)
    requires forall j | 0 <= j < |moves| :: moves[j].Call? ==> moves[j].r.size >= OVERHEAD
    ensures AllSpaced(states[i])
  {
    if i > 0 {
      SpacedAlways(states, moves, i - 1);
      OrderlyAlways(states, moves, i - 1);
      var m := moves[i - 1];
      if m.Attempt? { NeverFilled(states, moves, i - 1, m.adder); }
      StepSpaced(states[i - 1], m, states[i]);
    }
  }
}
