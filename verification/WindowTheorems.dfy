/** Main results about one send window: which acknowledgements are accepted, that a blocked producer
    always has an acknowledgement on its way, the per-client byte cap, and what draining reports. */
module WindowTheorems {
  import opened Words
  import opened Tables
  import opened WindowSpec
  import opened WindowLaws
  import opened WindowRuns

  // ----- Acknowledgements -----

  /** Exactly the acknowledgements of delivered, held frames are applied, up to the check against the
      next sequence number, which is exact only while numbers have not wrapped. */
  lemma AckAppliedIff(w: Window, sn: u64, backing: u64)
    requires Core(w) && |w.slots| <= backing <= MAX_SLOTS
    ensures AckVerdict(w, sn, backing) == Applied
       <==> Pos(w, sn) < |w.slots| && Pos(w, sn) < Max(w.deliver, 1) && (sn < w.next || sn == MAX64 || w.next == 0)
  {
  }

  /** The held sequence numbers have not wrapped around. */
  predicate Unwrapped(w: Window) {
    w.first + |w.slots| <= TWO64
  }

  lemma AckAppliedUnwrapped(w: Window, sn: u64, backing: u64)
    requires Core(w) && |w.slots| <= backing <= MAX_SLOTS && Unwrapped(w)
    ensures AckVerdict(w, sn, backing) == Applied <==> Pos(w, sn) < |w.slots| && Pos(w, sn) < Max(w.deliver, 1)
  {
    AckAppliedIff(w, sn, backing);
  }

  /** Every wrapped window rejects the acknowledgement of a delivered frame from before the wrap: the
      first one, unless it is the largest sequence number or the next one is zero. */
  lemma AckRejectedAfterWrap(w: Window, backing: u64)
    requires Core(w) && |w.slots| <= backing <= MAX_SLOTS && w.deliver > 0
    requires !Unwrapped(w) && w.first != MAX64
    ensures AckVerdict(w, w.first, backing) == Rejected(Unexpected)
  {
  }

  /** A late acknowledgement of a remembered, locally released frame is accepted and changes nothing,
      and so does every rejected one. */
  lemma AckWithoutEffect(w: Window, sn: u64, backing: u64)
    requires Core(w) && AckVerdict(w, sn, backing) != Applied
    ensures Ack(w, sn, backing) == w && AckRefunds(w, AckCount(w, sn, backing)) == []
    ensures AckVerdict(w, sn, backing) == Ignored <==> Pos(w, sn) >= |w.slots| && sn in w.ring
  {
  }

  lemma AckByRemoves(w: Window, k: nat)
    requires 0 < k <= |w.slots| <= MAX_SLOTS
    ensures var n := RetiredRun(w.slots[k..]);
      AckBy(w, k).slots == w.slots[k + n..] && AckBy(w, k).first == Plus(w.first, k + n)
  {
    var n := RetiredRun(w.slots[k..]);
    assert w.slots[k..][n..] == w.slots[k + n..];
  }

  /** An applied acknowledgement removes exactly the frames up to its own, and then retired ones. */
  lemma AckRemoves(w: Window, sn: u64, backing: u64)
    requires Inv(w) && AckVerdict(w, sn, backing) == Applied
    ensures var k := AckCount(w, sn, backing);
      && k == Pos(w, sn) + 1
      && Ack(w, sn, backing).slots == w.slots[k + RetiredRun(w.slots[k..])..]
      && Ack(w, sn, backing).first == Plus(w.first, k + RetiredRun(w.slots[k..]))
  {
    AckByRemoves(w, AckCount(w, sn, backing));
  }

  /** Why an acknowledgement is refused, while held numbers have not wrapped: its frame is held but was not
      handed out, or it is not held and not a remembered, locally released one. */
  lemma AckRefusedUnwrapped(w: Window, sn: u64, backing: u64)
    requires Core(w) && |w.slots| <= backing <= MAX_SLOTS && Unwrapped(w)
    ensures AckVerdict(w, sn, backing) == Rejected(NotDelivered) <==> Max(w.deliver, 1) <= Pos(w, sn) < |w.slots|
    ensures AckVerdict(w, sn, backing) == Rejected(NotInBuffer) || AckVerdict(w, sn, backing) == Rejected(Unexpected)
       <==> Pos(w, sn) >= |w.slots| && sn !in w.ring
    ensures AckVerdict(w, sn, backing) == Rejected(NotInBuffer) && w.next != 0 && sn != MAX64 ==> sn < w.first
  {
  }

  // ----- Requests for acknowledgement -----

  /** Sequence numbers of the run so far are plain numbers. */
  predicate Plain(w: Window) {
    1 <= w.first && w.first + |w.slots| < TWO64
  }

  /** A held, live message that asks for an acknowledgement. */
  ghost predicate Asking(w: Window, i: nat) {
    i < |w.slots| && !w.slots[i].retired && w.slots[i].msg.ack
  }

  /** The last flagged number, while not passed, is that of a held, live, flagged message. */
  ghost predicate FlagHeld(w: Window) {
    w.lastFlagged != 0 ==>
      w.lastFlagged < w.first + |w.slots| && (w.lastFlagged >= w.first ==> Asking(w, w.lastFlagged - w.first))
  }

  lemma RemoveFlag(w: Window, k: nat, acked: bool)
    requires Core(w) && Plain(w) && FlagHeld(w) && k <= |w.slots|
    ensures Plain(Remove(w, k, acked)) && FlagHeld(Remove(w, k, acked))
  {
  }

  lemma ReleaseHeadFlag(w: Window)
    requires Core(w) && Plain(w) && FlagHeld(w)
    ensures Plain(ReleaseHead(w)) && FlagHeld(ReleaseHead(w))
  {
    var n := RetiredRun(w.slots);
    if n > 0 {
      var y := w.(ring := RememberRun(w.ring, w.first, n));
      RingBounded(w.ring, w.first, n);
      forall i | 0 <= i < |y.slots| ensures SlotOk(y, i) { assert SlotOk(w, i); }
      RemoveFlag(y, n, false);
    }
  }

  lemma {:induction false} SpentFlag(w: Window, j: nat)
    requires Core(w) && Counted(w) && Tracking(w) && Plain(w) && FlagHeld(w) && j <= |w.tracked|
    ensures Plain(RetireSpent(w, j)) && FlagHeld(RetireSpent(w, j))
  {
    if j > 0 {
      SpentFlag(w, j - 1);
      RetireSpentKeeps(w, j - 1);
      RetireFlag(RetireSpent(w, j - 1), w.tracked[j - 1]);
    }
  }

  lemma RetireFlag(w: Window, e: Entry)
    requires Core(w) && Plain(w) && FlagHeld(w)
    ensures Plain(RetireIfSpent(w, e)) && FlagHeld(RetireIfSpent(w, e))
  {
    if ToRetire(w, e) { assert SlotOk(w, Pos(w, e.sn)); }
  }

  lemma AckFlag(w: Window, k: nat)
    requires Inv(w) && Plain(w) && FlagHeld(w) && k <= |w.slots|
    ensures Plain(AckBy(w, k)) && FlagHeld(AckBy(w, k))
  {
    if k > 0 {
      RemoveFlag(w, k, true);
      RemoveKeeps(w, k, true);
      ReleaseHeadFlag(Remove(w, k, true));
    }
  }

  lemma ResetFlag(w: Window)
    requires Inv(w) && Plain(w) && FlagHeld(w)
    ensures Plain(Reset(w)) && FlagHeld(Reset(w))
  {
    var v := w.(deliver := 0);
    RestartKeeps(w);
    SpentFlag(v, |v.tracked|);
    RetireSpentKeeps(v, |v.tracked|);
    ReleaseHeadFlag(RetireSpent(v, |v.tracked|));
  }

  /** Every operation keeps the flag true, as long as numbers stay plain. */
  lemma FlagKept(w: Window, op: Op)
    requires Inv(w) && Enabled(w, op) && Plain(w) && FlagHeld(w) && Plain(Apply(w, op))
    ensures FlagHeld(Apply(w, op))
  {
    match op
    case Confirmed(sn, backing) => AckFlag(w, AckCount(w, sn, backing));
    case Deliver => DeliverFlag(w);
    case Restart => ResetFlag(w);
    case _ =>
  }

  lemma DeliverFlag(w: Window)
    requires Inv(w) && FlagHeld(w)
    ensures FlagHeld(Next(w).w)
  {
    NextExact(w);
  }

  // ----- The per-client cap -----

  /** Held bytes exceed the cap by at most one message, the one that asked last. */
  ghost predicate ByteCap(w: Window) {
    w.maxBytes != 0 && w.bytes > w.maxBytes ==>
      && HeldFlagged(w) && w.lastFlagged - w.first < |w.slots|
      && w.bytes <= w.maxBytes + w.slots[w.lastFlagged - w.first].size
  }

  lemma RemoveCap(w: Window, k: nat, acked: bool)
    requires Core(w) && Counted(w) && Plain(w) && ByteCap(w) && k <= |w.slots|
    ensures ByteCap(Remove(w, k, acked))
  {
    RemoveCounted(w, k, acked);
    if w.maxBytes != 0 && w.bytes > w.maxBytes && w.lastFlagged - w.first < k {
      SumAtLeast(w.slots[..k], w.lastFlagged - w.first, SizeOf());
    }
  }

  lemma ReleaseHeadCap(w: Window)
    requires Core(w) && Counted(w) && Plain(w) && ByteCap(w)
    ensures ByteCap(ReleaseHead(w))
  {
    var n := RetiredRun(w.slots);
    if n > 0 {
      var y := w.(ring := RememberRun(w.ring, w.first, n));
      RingBounded(w.ring, w.first, n);
      forall i | 0 <= i < |y.slots| ensures SlotOk(y, i) { assert SlotOk(w, i); }
      RemoveCap(y, n, false);
    }
  }

  lemma RetireCap(w: Window, e: Entry)
    requires Core(w) && Counted(w) && Plain(w) && ByteCap(w)
    ensures ByteCap(RetireIfSpent(w, e))
  {
    if ToRetire(w, e) {
      assert SlotOk(w, Pos(w, e.sn));
      SumAtLeast(w.slots, Pos(w, e.sn), SizeOf());
      if HeldFlagged(w) && w.lastFlagged - w.first < |w.slots| { assert SlotOk(w, w.lastFlagged - w.first); }
    }
  }

  lemma {:induction false} SpentCap(w: Window, j: nat)
    requires Core(w) && Counted(w) && Tracking(w) && Plain(w) && ByteCap(w) && j <= |w.tracked|
    ensures Plain(RetireSpent(w, j)) && ByteCap(RetireSpent(w, j))
  {
    if j > 0 {
      SpentCap(w, j - 1);
      RetireSpentKeeps(w, j - 1);
      RetireCap(RetireSpent(w, j - 1), w.tracked[j - 1]);
    }
  }

  lemma ResetCap(w: Window)
    requires Inv(w) && Plain(w) && ByteCap(w)
    ensures ByteCap(Reset(w))
  {
    var v := w.(deliver := 0);
    RestartKeeps(w);
    SpentCap(v, |v.tracked|);
    RetireSpentKeeps(v, |v.tracked|);
    ReleaseHeadCap(RetireSpent(v, |v.tracked|));
  }

  lemma AckCap(w: Window, k: nat)
    requires Inv(w) && Plain(w) && ByteCap(w) && k <= |w.slots|
    ensures ByteCap(AckBy(w, k))
  {
    if k > 0 {
      RemoveCap(w, k, true);
      RemoveKeeps(w, k, true);
      ReleaseHeadCap(Remove(w, k, true));
    }
  }

  /** Admission as the client does it: beyond its cap only when nothing held asks, and then forced. */
  predicate Permitted(w: Window, op: Op) {
    op.Add? ==> (Over(w, op.r.size) ==> !HeldFlagged(w) && op.forced)
  }

  /** Every operation keeps held bytes within the cap plus one message. */
  lemma CapKept(w: Window, op: Op)
    requires Inv(w) && Enabled(w, op) && Permitted(w, op) && Plain(w) && ByteCap(w) && Plain(Apply(w, op))
    ensures ByteCap(Apply(w, op))
  {
    match op
    case Add(r, forced, step, escaped) => AdmitCap(w, r, forced, step, escaped);
    case Confirmed(sn, backing) => AckCap(w, AckCount(w, sn, backing));
    case Deliver => DeliverCap(w);
    case Restart => ResetCap(w);
    case _ =>
  }

  lemma DeliverCap(w: Window)
    requires Inv(w) && ByteCap(w)
    ensures ByteCap(Next(w).w)
  {
    NextExact(w);
  }

  lemma AdmitCap(w: Window, r: Request, forced: bool, step: nat, escaped: bool)
    requires Plain(w) && ByteCap(w) && w.ackEvery > 0 && w.next == w.first + |w.slots|
    requires Over(w, r.size) ==> !HeldFlagged(w) && forced
    ensures ByteCap(Admit(w, r, forced, step, escaped))
  {
  }

  // ----- Spacing of requests -----

  /** Once the cap is half used, less than a sixteenth of it was admitted since the last request. */
  ghost predicate Spaced(w: Window) {
    w.maxBytes >= 16 && 2 * w.bytes >= w.maxBytes ==> w.sinceFlag < w.maxBytes / 16
  }

  /** Admission as the client does it: with the pressure step of its own cap and the shared pool, and forced
      by a pool so small that no message fits it. */
  predicate WithStep(w: Window, op: Op, pool: Option<(nat, nat)>) {
    op.Add? ==>
      && op.step == Step(w, op.r.size, pool)
      && (pool.Some? && 0 < pool.value.1 < PRESSURE_STEPS ==> op.forced)
  }

  /** Bytes only shrink without an admission, and admissions alone move the count since a request. */
  lemma OthersShrink(w: Window, op: Op)
    requires Inv(w) && Enabled(w, op) && !op.Add?
    ensures Apply(w, op).bytes <= w.bytes && Apply(w, op).sinceFlag == w.sinceFlag && Apply(w, op).maxBytes == w.maxBytes
  {
    match op
    case Confirmed(sn, backing) => AckShrinks(w, AckCount(w, sn, backing));
    case Deliver => NextExact(w);
    case Restart => SpentShrinks(w.(deliver := 0), |w.tracked|);
    case _ =>
  }

  lemma AckShrinks(w: Window, k: nat)
    requires k <= |w.slots| <= MAX_SLOTS
    ensures AckBy(w, k).bytes <= w.bytes && AckBy(w, k).sinceFlag == w.sinceFlag && AckBy(w, k).maxBytes == w.maxBytes
  {
  }

  lemma {:induction false} SpentShrinks(w: Window, j: nat)
    requires j <= |w.tracked|
    ensures RetireSpent(w, j).bytes <= w.bytes && RetireSpent(w, j).sinceFlag == w.sinceFlag
    ensures RetireSpent(w, j).maxBytes == w.maxBytes
  {
    if j > 0 { SpentShrinks(w, j - 1); }
  }

  /** Every step the client makes keeps requests spaced, whatever the shared pool. */
  lemma SpacingKept(w: Window, op: Op, pool: Option<(nat, nat)>)
    requires Inv(w) && Enabled(w, op) && WithStep(w, op, pool) && Spaced(w)
    ensures Spaced(Apply(w, op))
  {
    if !op.Add? { OthersShrink(w, op); }
  }

  // ----- Whole runs -----

  /** The steps of a run are those of a client whose shared pool reads `pools` at each, with numbers
      that have not wrapped. */
  ghost predicate AsClient(h: History, ops: seq<Op>, pools: seq<Option<(nat, nat)>>)
    requires |pools| == |ops|
  {
    Plain(After(h, ops).w)
    && (|ops| > 0 ==>
          var n := |ops| - 1;
          var g := After(h, ops[..n]);
          AsClient(h, ops[..n], pools[..n]) && Permitted(g.w, ops[n]) && WithStep(g.w, ops[n], pools[n]))
  }

  /** In every run of a client: the byte cap is exceeded by at most the last message that asked, the
      held request is real, and requests are spaced. */
  lemma {:induction false} ClientRun(maxBytes: nat, ops: seq<Op>, pools: seq<Option<(nat, nat)>>)
    requires |pools| == |ops| && Possible(Start(true, maxBytes), ops) && AsClient(Start(true, maxBytes), ops, pools)
    ensures var w := After(Start(true, maxBytes), ops).w;
      ByteCap(w) && FlagHeld(w) && Spaced(w)
  {
    if |ops| > 0 {
      var n := |ops| - 1;
      ClientRun(maxBytes, ops[..n], pools[..n]);
      RunKeeps(true, maxBytes, ops[..n]);
      var w := After(Start(true, maxBytes), ops[..n]).w;
      ThenApplies(After(Start(true, maxBytes), ops[..n]), ops[n]);
      CapKept(w, ops[n]);
      FlagKept(w, ops[n]);
      SpacingKept(w, ops[n], pools[n]);
    }
  }

  // ----- Draining -----

  /** Nothing live remains exactly if the window is empty: retired frames never stall a drain. */
  lemma DrainedIff(w: Window)
    requires Inv(w)
    ensures Live(w.slots) == [] <==> w.slots == []
  {
    if w.slots != [] {
      FirstIsLive(w.slots);
    }
  }

  /** The live messages are those of the slots that are not retired, each once and in order. */
  lemma {:induction false} LiveParts(a: seq<Slot>, b: seq<Slot>, s: Slot)
    ensures Live(a + b) == Live(a) + Live(b)
    ensures Live([s]) == if s.retired then [] else [s.msg]
    ensures Live([]) == []
  {
    assert [s][..0] == [];
    if |b| == 0 {
      assert a + b == a;
    } else {
      var init := b[..|b| - 1];
      LiveParts(a, init, s);
      assert (a + b)[..|a + b| - 1] == a + init;
    }
  }

  lemma {:induction false} FirstIsLive(slots: seq<Slot>)
    requires |slots| > 0 && !slots[0].retired
    ensures |Live(slots)| > 0 && Live(slots)[0] == slots[0].msg
  {
    if |slots| > 1 {
      FirstIsLive(slots[..|slots| - 1]);
    } else {
      assert slots[..0] == [];
    }
  }

  /** Once admission is sealed, the last live message is handed out asking for an acknowledgement, no
      other message is changed, and what is stored stays as it was admitted. */
  lemma SealedTail(w: Window)
    requires Inv(w) && !w.running && Next(w).msg.Some?
    ensures var n, m := FirstLive(w.slots, w.deliver), Next(w).msg.value;
      && n < |w.slots| && !w.slots[n].retired
      && m == w.slots[n].msg.(ack := m.ack)
      && (m.ack <==> w.slots[n].msg.ack || forall i | n < i < |w.slots| :: w.slots[i].retired)
      && Next(w).w.slots == w.slots
  {
    NextExact(w);
  }
}
