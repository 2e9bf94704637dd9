/** A client's send buffer next to the shared budget it charges. A buffer operation returns the charges
    it gives up, and the client hands them to the budget before it lets go of the buffer. */
module Senders {
  import opened Words
  import opened Tables
  import opened BudgetSpec
  import opened ByteBudgets
  import opened WindowSpec
  import WL = WindowLaws
  import opened WindowRuns
  import opened Clients
  import opened AckBuffers

  lemma {:induction false} CreditsKeepGroups(p: Pool, picks: seq<nat>)
    ensures |Credits(p, picks).groups| == |p.groups|
  {
    if |picks| > 0 { CreditsKeepGroups(p, picks[..|picks| - 1]); }
  }

  /** The table of groups keeps its length, so a group index stays good. */
  lemma ReleaseKeepsGroups(p: Pool, n: nat, escape: nat, g: nat)
    ensures forall q | Released(p, n, escape, g, q) :: |q.groups| == |p.groups|
  {
    forall q | Released(p, n, escape, g, q) ensures |q.groups| == |p.groups| {
      if n != 0 && p.fair {
        var r := Release(p, n, escape, g);
        var picks :| Legal(r, picks) && q == Credits(r, picks) && Quiet(q);
        CreditsKeepGroups(r, picks);
      }
    }
  }

  lemma ChainMore(rs: seq<Refund>, i: nat, g: nat, pools: seq<Pool>, q: Pool)
    requires i < |rs| && Chain(rs[..i], g, pools) && Released(pools[i], rs[i].bytes, rs[i].escape, g, q)
    ensures Chain(rs[..i + 1], g, pools + [q])
  {
    var more, all := rs[..i + 1], pools + [q];
    forall k | 0 <= k < i + 1 ensures Released(all[k], more[k].bytes, more[k].escape, g, all[k + 1]) {
      if k < i { assert rs[..i][k] == rs[k]; }
    }
  }

  /** Hands refunds to a budget, one by one. */
  method PayBack(shared: ByteBudget, group: nat, rs: seq<Refund>)
    requires shared.Valid() && (shared.fair ==> group < |shared.groups|)
    modifies shared, shared.blocked
    ensures shared.Valid() && (shared.fair ==> group < |shared.groups|)
    ensures ReleasedAll(old(shared.View()), rs, group, shared.View())
  {
    ghost var pools := [shared.View()];
    var i := 0;
    while i < |rs|
      invariant i <= |rs| && shared.Valid() && (shared.fair ==> group < |shared.groups|) && |pools| == i + 1
      invariant pools[0] == old(shared.View()) && pools[i] == shared.View()
      invariant Chain(rs[..i], group, pools)
    {
      ReleaseKeepsGroups(shared.View(), rs[i].bytes, rs[i].escape, group);
      shared.ReleaseFor(rs[i].bytes, rs[i].escape, group);
      ChainMore(rs, i, group, pools, shared.View());
      pools := pools + [shared.View()];
      i := i + 1;
    }
    assert rs[..i] == rs;
  }

  /** The message of a granted reservation enters the window. */
  method AdmitReserved(ab: AckBuffer, r: Request, over: bool, overshot: bool, used: nat, total: nat, fair: bool)
    requires ab.Valid() && ab.table.accounting && ab.isRunning && ab.isAvailable && r.size > 0
    requires over == Over(ab.View(), r.size)
    modifies ab, ab.table, ab.table.store, ab.table.store.buff, ab.receipts, ab.receipts.chain
    ensures ab.Valid()
    ensures ab.table.store.buff == old(ab.table.store.buff)
    ensures forall i | 0 <= i < |ab.receipts.chain| ::
              ab.receipts.chain[i] in old(ab.receipts.chain) || fresh(ab.receipts.chain[i])
    ensures var w := old(ab.View());
      ab.View() == Admit(w, r, over || overshot, Step(w, r.size, Some((used, total))), overshot && fair)
  {
    var step := PressureStep(ab.maxBytes, ab.table.bytes + r.size, used, total, ab.View(), r.size);
    ab.AdmitMessage(r, over || overshot, step, overshot && fair);
  }

  /** The local part of an attempt: whether the pool is asked at all, and whether it is forced. */
  method Decide(ab: AckBuffer, size: nat) returns (refused: bool, held: bool, over: bool)
    requires ab.Valid()
    ensures refused == RefusedLocally(ab.View(), size)
    ensures held == HeldFlagged(ab.View()) && over == Over(ab.View(), size)
  {
    held := ab.lastFlaggedSeq != 0 && ab.lastFlaggedSeq >= ab.table.firstSeqNum;
    over := ab.maxBytes != 0 && ab.table.bytes + size > ab.maxBytes;
    refused := !ab.isAvailable || (ab.table.accounting && over && held);
  }

  /** A refused attempt gives up its waiter. */
  method Refuse(shared: ByteBudget, group: nat, waiter: Option<nat>)
    requires shared.Valid() && Known(shared.View(), group, waiter)
    modifies shared, shared.blocked
    ensures shared.Valid()
    ensures if waiter.Some? then Cancelled(old(shared.View()), waiter.value, shared.View())
            else shared.View() == old(shared.View())
  {
    if waiter.Some? {
      shared.Cancel(waiter.value);
    }
  }

  /** An attempt that reaches the pool. */
  method Reserve(ab: AckBuffer, shared: ByteBudget, group: nat, r: Request, waiter: Option<nat>, held: bool, over: bool)
    returns (ok: bool, kept: Option<nat>)
    requires ab.Valid() && ab.table.accounting && ab.isRunning && ab.isAvailable && r.size > 0
    requires shared.Valid() && Known(shared.View(), group, waiter)
    requires held == HeldFlagged(ab.View()) && over == Over(ab.View(), r.size)
    modifies ab, ab.table, ab.table.store, ab.table.store.buff, ab.receipts, ab.receipts.chain, shared, shared.blocked
    ensures ab.Valid() && shared.Valid()
    ensures ab.table.store.buff == old(ab.table.store.buff)
    ensures forall i | 0 <= i < |ab.receipts.chain| ::
              ab.receipts.chain[i] in old(ab.receipts.chain) || fresh(ab.receipts.chain[i])
    ensures var a := Ask(old(shared.View()), r.size, !held, group, waiter); var w := old(ab.View());
      && w.ackEvery > 0 && Reserved(old(shared.View()), r.size, !held, group, waiter, shared.View(), a) && ok == a.ok
      && (if ok then ab.View() == Admitted(w, r, a.overshot, shared.View()) && kept == None
          else ab.View() == w && kept == a.waiter)
  {
    var overshot, used;
    ok, overshot, used, kept := shared.ReserveFor(r.size, !held, group, waiter);
    if ok {
      kept := None;
      AdmitBeside(ab, shared, r, over, overshot, used);
    }
  }

  /** An admission leaves the budget alone. */
  method AdmitBeside(ab: AckBuffer, shared: ByteBudget, r: Request, over: bool, overshot: bool, used: nat)
    requires ab.Valid() && ab.table.accounting && ab.isRunning && ab.isAvailable && r.size > 0
    requires over == Over(ab.View(), r.size) && shared.Valid() && used == shared.used
    modifies ab, ab.table, ab.table.store, ab.table.store.buff, ab.receipts, ab.receipts.chain
    ensures ab.Valid() && shared.Valid() && shared.View() == old(shared.View())
    ensures ab.table.store.buff == old(ab.table.store.buff)
    ensures forall i | 0 <= i < |ab.receipts.chain| ::
              ab.receipts.chain[i] in old(ab.receipts.chain) || fresh(ab.receipts.chain[i])
    ensures old(ab.View()).ackEvery > 0 && ab.View() == Admitted(old(ab.View()), r, overshot, shared.View())
  {
    AdmitReserved(ab, r, over, overshot, used, shared.total, shared.fair);
  }

  /** One attempt to add a message, with the waiter of an earlier one. */
  method TryAdd(ab: AckBuffer, shared: ByteBudget, group: nat, r: Request, waiter: Option<nat>)
    returns (ok: bool, kept: Option<nat>)
    requires ab.Valid() && ab.table.accounting && ab.isRunning && r.size > 0
    requires shared.Valid() && Known(shared.View(), group, waiter)
    modifies ab, ab.table, ab.table.store, ab.table.store.buff, ab.receipts, ab.receipts.chain, shared, shared.blocked
    ensures ab.Valid() && shared.Valid()
    ensures ab.table.store.buff == old(ab.table.store.buff)
    ensures forall i | 0 <= i < |ab.receipts.chain| ::
              ab.receipts.chain[i] in old(ab.receipts.chain) || fresh(ab.receipts.chain[i])
    ensures Tried(old(ab.View()), r, old(shared.View()), group, waiter, ab.View(), shared.View(), ok, kept)
  {
    ok, kept := false, None;
    var refused, held, over := Decide(ab, r.size);
    if refused {
      Refuse(shared, group, waiter);
    } else {
      ok, kept := Reserve(ab, shared, group, r, waiter, held, over);
    }
  }

  /** One attempt of a client without a shared budget. */
  method TryAddAlone(ab: AckBuffer, r: Request) returns (ok: bool)
    requires ab.Valid() && ab.isRunning && (!ab.table.accounting ==> r.size == 0)
    modifies ab, ab.table, ab.table.store, ab.table.store.buff, ab.receipts, ab.receipts.chain
    ensures ab.table.store.buff == old(ab.table.store.buff)
    ensures forall i | 0 <= i < |ab.receipts.chain| ::
              ab.receipts.chain[i] in old(ab.receipts.chain) || fresh(ab.receipts.chain[i])
    ensures ab.Valid() && TriedAlone(old(ab.View()), r, ab.View(), ok)
  {
    var refused, held, over := Decide(ab, r.size);
    ok := !refused;
    if ok {
      var step := 0;
      if ab.table.accounting {
        step := OwnStep(ab.maxBytes, ab.table.bytes + r.size, ab.View(), r.size);
      }
      ab.AdmitMessage(r, ab.table.accounting && over, step, false);
    }
  }

  /** The pressure step of the client's own cap. */
  method OwnStep(maxBytes: nat, bytes: nat, ghost w: Window, ghost size: nat) returns (step: nat)
    requires maxBytes == w.maxBytes && bytes == w.bytes + size
    ensures step == Step(w, size, None)
  {
    step := 0;
    if maxBytes != 0 && 2 * bytes >= maxBytes {
      step := maxBytes / PRESSURE_STEPS;
    }
  }

  /** After how many unrequested bytes a half-used limit asks for an acknowledgement. */
  method PressureStep(maxBytes: nat, bytes: nat, used: nat, total: nat, ghost w: Window, ghost size: nat)
    returns (step: nat)
    requires maxBytes == w.maxBytes && bytes == w.bytes + size
    ensures step == Step(w, size, Some((used, total)))
  {
    step := OwnStep(maxBytes, bytes, w, size);
    if total != 0 && 2 * used >= total && (step == 0 || total / PRESSURE_STEPS < step) {
      step := total / PRESSURE_STEPS;
    }
  }
}
