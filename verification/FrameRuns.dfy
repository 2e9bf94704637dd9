/** What happens to each frame over whole runs: the message that is stored and handed out for it, how often
    messages ask for an acknowledgement by count alone, and exactly which frames a delivery reset retires. */
module FrameRuns {
  import opened Words
  import opened Tables
  import opened WindowSpec
  import opened WindowLaws
  import opened WindowRuns

  /** The sequence number of frame `a`: numbers start at 1 and wrap. */
  function NumberOf(a: nat): u64 {
    if a == 0 then 1 else Plus(NumberOf(a - 1), 1)
  }

  /** After how many messages one asks for an acknowledgement, for a count window of this size. */
  function Interval(capacity: nat): (k: nat)
    ensures k >= 1
  {
    Max(capacity / 2, 1)
  }

  // ----- One handoff -----

  /** What is handed out is the first live message from the delivery point on, unchanged but for the request
      that the last live message of a sealed window makes. */
  lemma HandoffExact(w: Window)
    requires Inv(w) && Next(w).msg.Some?
    ensures var n, m := FirstLive(w.slots, w.deliver), Next(w).msg.value;
      && n < |w.slots| && !w.slots[n].retired
      && m.body == w.slots[n].msg.body && m.seqNum == Plus(w.first, n)
      && (m.ack <==> w.slots[n].msg.ack || (!w.running && forall i | n < i < |w.slots| :: w.slots[i].retired))
      && Next(w).w.slots == w.slots && Next(w).w.deliver == n + 1
  {
    NextExact(w);
    assert SlotOk(w, FirstLive(w.slots, w.deliver));
  }

  /** Nothing is handed out exactly if nothing live is left to deliver. */
  lemma HandoffIff(w: Window)
    requires Inv(w)
    ensures Next(w).msg.Some? <==> exists i | w.deliver <= i < |w.slots| :: !w.slots[i].retired
  {
    NextExact(w);
  }

  // ----- One admission -----

  /** An admitted message is stored as it came, with the next number, and asks exactly if its caller wants
      it, its number is a multiple of the interval, it was forced, or enough bytes came since a request. */
  lemma AdmittedAsksIff(w: Window, r: Request, forced: bool, step: nat, escaped: bool)
    requires w.ackEvery == Interval(w.capacity)
    ensures var x := Admit(w, r, forced, step, escaped);
      && x.slots[..|w.slots|] == w.slots && |x.slots| == |w.slots| + 1
      && var s := x.slots[|w.slots|];
      && s.msg.body == r.msg.body && s.msg.seqNum == w.next && s.size == r.size && !s.retired
      && (s.msg.ack <==> || r.msg.ack || w.next % Interval(w.capacity) == 0 || forced
                         || (step != 0 && w.sinceFlag + r.size >= step))
  {
  }

  // ----- The invariant -----

  /** The message of a live slot is the one its frame was admitted with. */
  ghost predicate Stored(h: History, i: nat)
    requires i < |h.w.slots|
  {
    && h.base + i < |h.origins|
    && (!h.w.slots[i].retired ==>
          h.w.slots[i].msg == Message(h.origins[h.base + i].body, NumberOf(h.base + i), h.origins[h.base + i].asks))
  }

  /** The `i`-th handoff was that of its frame's message, asking at least if that does. */
  ghost predicate HandedAs(h: History, i: nat)
    requires i < |h.sent| && i < |h.out|
  {
    && h.sent[i] < |h.origins|
    && h.out[i].body == h.origins[h.sent[i]].body && h.out[i].seqNum == NumberOf(h.sent[i])
    && (h.origins[h.sent[i]].asks ==> h.out[i].ack)
  }

  /** A frame asks if its caller wanted it or its number is a multiple of the interval it was admitted at. */
  ghost predicate Regular(o: Origin, a: nat) {
    o.wanted || NumberOf(a) % Interval(o.capacity) == 0 ==> o.asks
  }

  /** A retired frame had a limit and was handed out exactly that often. */
  ghost predicate Spent(h: History, a: nat) {
    a < |h.limits| && h.limits[a] != 0 && multiset(h.sent)[a] == h.limits[a]
  }

  ghost predicate FrameInv(h: History) {
    && |h.origins| == h.base + |h.w.slots| && |h.out| == |h.sent|
    && h.w.first == NumberOf(h.base) && h.w.ackEvery == Interval(h.w.capacity)
    && (forall i | 0 <= i < |h.w.slots| :: Stored(h, i))
    && (forall i | 0 <= i < |h.out| :: HandedAs(h, i))
    && (forall a | 0 <= a < |h.origins| :: Regular(h.origins[a], a))
    && (forall a | a in h.retired :: Spent(h, a))
  }

  lemma {:induction false} NumberShift(a: nat, k: nat)
    requires k <= MAX_SLOTS
    ensures Plus(NumberOf(a), k) == NumberOf(a + k)
  {
    if k > 0 { NumberShift(a, k - 1); }
  }

  /** `g` is `h` without its first `k` slots, which no frame's history notices. */
  lemma Shortened(h: History, g: History, k: nat)
    requires FrameInv(h) && k <= |h.w.slots| <= MAX_SLOTS
    requires g.base == h.base + k && g.w.first == Plus(h.w.first, k) && g.w.slots == h.w.slots[k..]
    requires g.w.capacity == h.w.capacity && g.w.ackEvery == h.w.ackEvery
    requires g.origins == h.origins && g.limits == h.limits && g.sent == h.sent && g.out == h.out && g.retired == h.retired
    ensures FrameInv(g)
  {
    NumberShift(h.base, k);
    forall i | 0 <= i < |g.w.slots| ensures Stored(g, i) { assert Stored(h, i + k); }
    forall i | 0 <= i < |g.out| ensures HandedAs(g, i) { assert HandedAs(h, i); }
    forall a | a in g.retired ensures Spent(g, a) { assert Spent(h, a); }
  }

  lemma HeadKeepsFrames(h: History)
    requires FrameInv(h) && |h.w.slots| <= MAX_SLOTS
    ensures FrameInv(HeadReleased(h))
  {
    var n := RetiredRun(h.w.slots);
    assert h.w.slots[0..] == h.w.slots;
    Shortened(h, HeadReleased(h), n);
  }

  lemma AckKeepsFrames(h: History, k: nat)
    requires FrameInv(h) && k <= |h.w.slots| <= MAX_SLOTS
    ensures FrameInv(Acked(h, k))
  {
    if k > 0 {
      Shortened(h, Popped(h, k, true), k);
      HeadKeepsFrames(Popped(h, k, true));
    }
  }

  lemma AddKeepsFrames(h: History, op: Op)
    requires FrameInv(h) && Core(h.w) && Sized(h) && op.Add? && Enabled(h.w, op)
    ensures FrameInv(Then(h, op))
  {
    var g := Then(h, op);
    AdmittedAsksIff(h.w, op.r, op.forced, op.step, op.escaped);
    NumberShift(h.base, |h.w.slots|);
    AddedFrames(h, g, g.w.slots[|h.w.slots|].msg, g.origins[|h.origins|]);
  }

  /** `g` is `h` with one more frame, stored as `m`. */
  lemma AddedFrames(h: History, g: History, m: Message, o: Origin)
    requires FrameInv(h) && |h.limits| <= |g.limits| && g.limits[..|h.limits|] == h.limits
    requires g.base == h.base && g.origins == h.origins + [o] && g.sent == h.sent && g.out == h.out && g.retired == h.retired
    requires |g.w.slots| == |h.w.slots| + 1 && g.w.slots[..|h.w.slots|] == h.w.slots && g.w.slots[|h.w.slots|].msg == m
    requires g.w.first == h.w.first && g.w.capacity == h.w.capacity && g.w.ackEvery == h.w.ackEvery
    requires m == Message(o.body, NumberOf(|h.origins|), o.asks) && Regular(o, |h.origins|)
    ensures FrameInv(g)
  {
    forall i | 0 <= i < |g.w.slots| ensures Stored(g, i) {
      if i < |h.w.slots| { assert Stored(h, i) && g.w.slots[..|h.w.slots|][i] == g.w.slots[i]; }
    }
    forall i | 0 <= i < |g.out| ensures HandedAs(g, i) { assert HandedAs(h, i); }
    forall a | 0 <= a < |g.origins| ensures Regular(g.origins[a], a) {
      if a < |h.origins| { assert Regular(h.origins[a], a); }
    }
    forall a | a in g.retired ensures Spent(g, a) { assert Spent(h, a) && g.limits[..|h.limits|][a] == g.limits[a]; }
  }

  lemma HandoutKeepsFrames(h: History, g: History, n: nat, m: Message)
    requires FrameInv(h) && n < |h.w.slots| && !h.w.slots[n].retired
    requires g == h.(w := g.w, sent := h.sent + [h.base + n], out := h.out + [m])
    requires g.w.slots == h.w.slots && g.w.first == h.w.first
    requires g.w.capacity == h.w.capacity && g.w.ackEvery == h.w.ackEvery
    requires m.body == h.w.slots[n].msg.body && m.seqNum == h.w.slots[n].msg.seqNum && (h.w.slots[n].msg.ack ==> m.ack)
    requires h.base + n !in h.retired
    ensures FrameInv(g)
  {
    assert Stored(h, n);
    forall i | 0 <= i < |g.w.slots| ensures Stored(g, i) { assert Stored(h, i); }
    forall i | 0 <= i < |g.out| ensures HandedAs(g, i) {
      if i < |h.out| { assert HandedAs(h, i); }
    }
    forall a | a in g.retired ensures Spent(g, a) { assert Spent(h, a); }
  }

  lemma OutgoingExact(w: Window, n: nat)
    requires Inv(w) && n == FirstLive(w.slots, w.deliver) < |w.slots|
    ensures var m := Outgoing(w, n);
      m.body == w.slots[n].msg.body && m.seqNum == w.slots[n].msg.seqNum && (w.slots[n].msg.ack ==> m.ack)
    ensures Handed(w, n).slots == w.slots && Handed(w, n).first == w.first
    ensures Handed(w, n).capacity == w.capacity && Handed(w, n).ackEvery == w.ackEvery
  {
  }

  lemma DeliverKeepsFrames(h: History)
    requires FrameInv(h) && RunInv(h) && Inv(h.w)
    ensures FrameInv(Then(h, Deliver))
  {
    var n := FirstLive(h.w.slots, h.w.deliver);
    DeliverIs(h);
    if n == |h.w.slots| {
      OthersKeepFrames(h, h.(w := h.w.(deliver := n)));
    } else {
      HandedKeepsFrames(h, n);
    }
  }

  lemma HandedKeepsFrames(h: History, n: nat)
    requires FrameInv(h) && FramesOk(h) && Inv(h.w) && n == FirstLive(h.w.slots, h.w.deliver) < |h.w.slots|
    ensures FrameInv(h.(w := Handed(h.w, n), sent := h.sent + [h.base + n], out := h.out + [Outgoing(h.w, n)]))
  {
    var g := h.(w := Handed(h.w, n), sent := h.sent + [h.base + n], out := h.out + [Outgoing(h.w, n)]);
    OutgoingExact(h.w, n);
    assert Accounted(h, h.base + n);
    HandoutKeepsFrames(h, g, n, Outgoing(h.w, n));
  }

  /** A step that leaves slots and handoffs alone. */
  lemma OthersKeepFrames(h: History, g: History)
    requires FrameInv(h) && g == h.(w := g.w, detached := g.detached)
    requires g.w.slots == h.w.slots && g.w.first == h.w.first && g.w.ackEvery == Interval(g.w.capacity)
    ensures FrameInv(g)
  {
    forall i | 0 <= i < |g.w.slots| ensures Stored(g, i) { assert Stored(h, i); }
    forall i | 0 <= i < |g.out| ensures HandedAs(g, i) { assert HandedAs(h, i); }
    forall a | a in g.retired ensures Spent(g, a) { assert Spent(h, a); }
  }

  // ----- Delivery resets -----

  /** A tracked entry of slot `i` among the first `j` that is at its limit. */
  ghost predicate AtLimit(w: Window, i: nat, j: nat)
    requires j <= |w.tracked|
  {
    exists k | 0 <= k < j :: Pos(w, w.tracked[k].sn) == i && w.tracked[k].max != 0 && w.tracked[k].sends >= w.tracked[k].max
  }

  lemma AtLimitStep(w: Window, i: nat, j: nat)
    requires 0 < j <= |w.tracked|
    ensures var e := w.tracked[j - 1];
      AtLimit(w, i, j) <==> AtLimit(w, i, j - 1) || (Pos(w, e.sn) == i && e.max != 0 && e.sends >= e.max)
  {
  }

  /** A pass over the tracked frames turns exactly those at their limit into placeholders. */
  lemma {:induction false} PassRetires(w: Window, j: nat, i: nat)
    requires j <= |w.tracked| && i < |w.slots|
    ensures var x := RetireSpent(w, j);
      && (x.slots[i].retired <==> w.slots[i].retired || AtLimit(w, i, j))
      && (!x.slots[i].retired ==> x.slots[i] == w.slots[i])
  {
    if j > 0 {
      PassRetires(w, j - 1, i);
      AtLimitStep(w, i, j);
    }
  }

  /** The count of a limited frame's handoffs is in its entry, as long as receipts are attached. */
  lemma LimitIff(h: History, i: nat)
    requires LinksOk(h) && Tracking(h.w) && !h.detached && Sized(h) && i < |h.w.slots|
    ensures AtLimit(h.w, i, |h.w.tracked|)
       <==> h.limits[h.base + i] != 0 && multiset(h.sent)[h.base + i] == h.limits[h.base + i]
  {
    var a, w := h.base + i, h.w;
    if AtLimit(w, i, |w.tracked|) {
      var k :| 0 <= k < |w.tracked| && Pos(w, w.tracked[k].sn) == i && w.tracked[k].max != 0
               && w.tracked[k].sends >= w.tracked[k].max;
      assert LinkOk(h, w.tracked[k]) && EntryOk(w, w.tracked[k]);
    } else if h.limits[a] != 0 {
      assert HasEntry(h, a);
      var k :| 0 <= k < |w.tracked| && h.base + Pos(w, w.tracked[k].sn) == a;
      assert LinkOk(h, w.tracked[k]) && EntryOk(w, w.tracked[k]);
    }
  }

  /** Exactly which slots a reset turns into placeholders: those of live frames with a limit that were handed
      out exactly that often, as long as receipts are attached. */
  lemma ResetPassIff(h: History, i: nat)
    requires RunInv(h) && i < |h.w.slots|
    ensures var x := SpentRetired(h).w; var a := h.base + i;
      && |x.slots| == |h.w.slots|
      && (x.slots[i].retired <==> h.w.slots[i].retired
                                  || (!h.detached && h.limits[a] != 0 && multiset(h.sent)[a] == h.limits[a]))
      && (!x.slots[i].retired ==> x.slots[i] == h.w.slots[i])
  {
    var v := h.w.(deliver := 0);
    PassRetires(v, |v.tracked|, i);
    assert AtLimit(v, i, |v.tracked|) == AtLimit(h.w, i, |h.w.tracked|);
    if !h.detached { LimitIff(h, i); }
  }

  lemma PassKeepsFrames(h: History)
    requires FrameInv(h) && RunInv(h)
    ensures FrameInv(SpentRetired(h))
  {
    var g := SpentRetired(h);
    RetiredFrames(h.base, g.w.slots);
    PassSettings(h.w.(deliver := 0), |h.w.tracked|);
    forall i | 0 <= i < |g.w.slots| ensures Stored(g, i) { ResetPassIff(h, i); assert Stored(h, i); }
    forall i | 0 <= i < |g.out| ensures HandedAs(g, i) { assert HandedAs(h, i); }
    forall a | a in g.retired ensures Spent(g, a) {
      if a in h.retired {
        assert Spent(h, a);
      } else {
        ResetPassIff(h, a - h.base);
        assert Accounted(h, a);
      }
    }
  }

  lemma {:induction false} PassSettings(w: Window, j: nat)
    requires j <= |w.tracked|
    ensures RetireSpent(w, j).capacity == w.capacity && RetireSpent(w, j).ackEvery == w.ackEvery
  {
    if j > 0 { PassSettings(w, j - 1); }
  }

  /** A live frame is retired by a reset if and only if it has a limit and was handed out exactly that often;
      otherwise it is still held and live afterwards. */
  lemma ResetRetiresIff(h: History, a: nat)
    requires RunInv(h) && HeldLive(h, a)
    ensures var g, spent := Then(h, Restart), !h.detached && h.limits[a] != 0 && multiset(h.sent)[a] == h.limits[a];
      (a in g.retired <==> spent) && (HeldLive(g, a) <==> !spent)
  {
    var g := SpentRetired(h);
    assert Accounted(h, a);
    ResetPassIff(h, a - h.base);
    RetiredFrames(h.base, g.w.slots);
    HeadHolds(g, a);
  }

  /** Releasing the head lets go of no live frame. */
  lemma HeadHolds(h: History, a: nat)
    requires |h.w.slots| <= MAX_SLOTS
    ensures HeldLive(HeadReleased(h), a) <==> HeldLive(h, a)
    ensures HeadReleased(h).retired == h.retired
  {
    RunRetired(h.w.slots);
    assert h.w.slots[0..] == h.w.slots;
  }

  // ----- Every run -----

  lemma ThenKeepsFrames(h: History, op: Op)
    requires FrameInv(h) && RunInv(h) && Inv(h.w) && Enabled(h.w, op)
    ensures FrameInv(Then(h, op))
  {
    match op
    case Add(_, _, _, _) => AddKeepsFrames(h, op);
    case Confirmed(sn, backing) => AckKeepsFrames(h, AckCount(h.w, sn, backing));
    case Deliver => DeliverKeepsFrames(h);
    case Restart => PassKeepsFrames(h); HeadKeepsFrames(SpentRetired(h));
    case _ => OthersKeepFrames(h, Then(h, op));
  }

  lemma {:induction false} FramesKeep(accounting: bool, maxBytes: nat, ops: seq<Op>)
    requires Possible(Start(accounting, maxBytes), ops)
    ensures FrameInv(After(Start(accounting, maxBytes), ops))
  {
    if |ops| > 0 {
      var init := ops[..|ops| - 1];
      FramesKeep(accounting, maxBytes, init);
      RunKeeps(accounting, maxBytes, init);
      ThenKeepsFrames(After(Start(accounting, maxBytes), init), ops[|ops| - 1]);
    }
  }

  /** Whenever a frame is handed out, at first or again after a reconnect, it is with the body and the number
      it was admitted with, asking for an acknowledgement at least if it did then. */
  lemma HandedOutAsAdmitted(accounting: bool, maxBytes: nat, ops: seq<Op>, i: nat)
    requires Possible(Start(accounting, maxBytes), ops) && i < |After(Start(accounting, maxBytes), ops).sent|
    ensures var h := After(Start(accounting, maxBytes), ops);
      && i < |h.out| && h.sent[i] < |h.origins|
      && h.out[i].body == h.origins[h.sent[i]].body && h.out[i].seqNum == NumberOf(h.sent[i])
      && (h.origins[h.sent[i]].asks ==> h.out[i].ack)
  {
    FramesKeep(accounting, maxBytes, ops);
    assert HandedAs(After(Start(accounting, maxBytes), ops), i);
  }

  /** Only frames that had their last transmission are ever retired. */
  lemma RetiredAreSpent(accounting: bool, maxBytes: nat, ops: seq<Op>, a: nat)
    requires Possible(Start(accounting, maxBytes), ops) && a in After(Start(accounting, maxBytes), ops).retired
    ensures var h := After(Start(accounting, maxBytes), ops);
      a < |h.limits| && h.limits[a] != 0 && multiset(h.sent)[a] == h.limits[a]
  {
    FramesKeep(accounting, maxBytes, ops);
    assert Spent(After(Start(accounting, maxBytes), ops), a);
  }

  // ----- Order of delivery -----

  /** The frames handed out since the latest delivery reset. */
  function Recent(h: History): seq<nat>
    requires h.mark <= |h.sent|
  {
    h.sent[h.mark..]
  }

  /** Since the latest reset frames were handed out in order and at most once, and none was passed over: the
      held live frames before the delivery point are those that were handed out. */
  ghost predicate InOrder(h: History) {
    && h.mark <= |h.sent| && h.w.deliver <= |h.w.slots|
    && Increasing(Recent(h))
    && (forall a | a in Recent(h) :: a < h.base + h.w.deliver)
    && (forall i | 0 <= i < h.w.deliver && !h.w.slots[i].retired :: h.base + i in Recent(h))
  }

  lemma AckKeepsOrder(h: History, g: History, k: nat)
    requires InOrder(h) && k <= |h.w.slots| && g.mark == h.mark && g.sent == h.sent && g.base == h.base + k
    requires g.w.slots == h.w.slots[k..] && g.w.deliver == if h.w.deliver > k then h.w.deliver - k else 0
    ensures InOrder(g)
  {
    forall i | 0 <= i < g.w.deliver && !g.w.slots[i].retired ensures g.base + i in Recent(g) {
      assert h.base + (i + k) in Recent(h);
    }
  }

  lemma HeadKeepsOrder(h: History)
    requires InOrder(h) && |h.w.slots| <= MAX_SLOTS
    ensures InOrder(HeadReleased(h))
  {
    assert h.w.slots[0..] == h.w.slots;
    AckKeepsOrder(h, HeadReleased(h), RetiredRun(h.w.slots));
  }

  lemma AckedKeepsOrder(h: History, k: nat)
    requires InOrder(h) && k <= |h.w.slots| <= MAX_SLOTS
    ensures InOrder(Acked(h, k))
  {
    if k > 0 {
      AckKeepsOrder(h, Popped(h, k, true), k);
      HeadKeepsOrder(Popped(h, k, true));
    }
  }

  lemma HandoutKeepsOrder(h: History, g: History, n: nat)
    requires InOrder(h) && h.w.deliver <= n < |h.w.slots| && forall i | h.w.deliver <= i < n :: h.w.slots[i].retired
    requires g == h.(w := g.w, sent := h.sent + [h.base + n], out := g.out)
    requires g.w.slots == h.w.slots && g.w.deliver == n + 1
    ensures InOrder(g)
  {
    var r := Recent(h);
    assert Recent(g) == r + [h.base + n];
    assert forall i | 0 <= i < |r| :: r[i] in r;
    forall i | 0 <= i < g.w.deliver && !g.w.slots[i].retired ensures g.base + i in Recent(g) {
      if i < n { assert h.base + i in r; } else { assert (r + [h.base + n])[|r|] == g.base + i; }
    }
  }

  lemma DeliverKeepsOrder(h: History)
    requires InOrder(h) && Inv(h.w)
    ensures InOrder(Then(h, Deliver))
  {
    var n := FirstLive(h.w.slots, h.w.deliver);
    DeliverIs(h);
    var g := Then(h, Deliver);
    if n < |h.w.slots| {
      var x := h.(w := Handed(h.w, n), sent := h.sent + [h.base + n], out := h.out + [Outgoing(h.w, n)]);
      assert g == x;
      HandedKeepsOrder(h, n);
      assert InOrder(x);
    } else {
      var x := h.(w := h.w.(deliver := n));
      assert g == x;
      SkippedKeepsOrder(h, n);
      assert InOrder(x);
    }
  }

  lemma HandedKeepsOrder(h: History, n: nat)
    requires InOrder(h) && n == FirstLive(h.w.slots, h.w.deliver) < |h.w.slots|
    ensures InOrder(h.(w := Handed(h.w, n), sent := h.sent + [h.base + n], out := h.out + [Outgoing(h.w, n)]))
  {
    var g := h.(w := Handed(h.w, n), sent := h.sent + [h.base + n], out := h.out + [Outgoing(h.w, n)]);
    HandoutKeepsOrder(h, g, n);
  }

  lemma SkippedKeepsOrder(h: History, n: nat)
    requires InOrder(h) && n == FirstLive(h.w.slots, h.w.deliver) == |h.w.slots|
    ensures InOrder(h.(w := h.w.(deliver := n)))
  {
    var g := h.(w := h.w.(deliver := n));
    assert Recent(g) == Recent(h);
  }

  lemma ResetKeepsOrder(h: History)
    requires |h.w.slots| <= MAX_SLOTS
    ensures InOrder(Then(h, Restart)) && Recent(Then(h, Restart)) == []
  {
    PassDelivers(h.w.(deliver := 0), |h.w.tracked|);
    HeadKeepsOrder(SpentRetired(h));
  }

  lemma {:induction false} PassDelivers(w: Window, j: nat)
    requires j <= |w.tracked|
    ensures RetireSpent(w, j).deliver == w.deliver
  {
    if j > 0 { PassDelivers(w, j - 1); }
  }

  lemma ThenKeepsOrder(h: History, op: Op)
    requires InOrder(h) && Inv(h.w) && Enabled(h.w, op)
    ensures InOrder(Then(h, op))
  {
    match op
    case Confirmed(sn, backing) => AckedKeepsOrder(h, AckCount(h.w, sn, backing));
    case Deliver => DeliverKeepsOrder(h);
    case Restart => ResetKeepsOrder(h);
    case _ =>
  }

  /** Over every run: between two delivery resets frames are handed out in the order of their admission, each
      at most once and none passed over; a held live frame comes before the delivery point exactly if it was
      handed out since the latest reset. */
  lemma DeliveredInOrder(accounting: bool, maxBytes: nat, ops: seq<Op>)
    requires Possible(Start(accounting, maxBytes), ops)
    ensures var h := After(Start(accounting, maxBytes), ops);
      && InOrder(h)
      && forall i | 0 <= i < |h.w.slots| && !h.w.slots[i].retired :: i < h.w.deliver <==> h.base + i in Recent(h)
  {
    OrderKept(accounting, maxBytes, ops);
    OrderMeans(After(Start(accounting, maxBytes), ops));
  }

  lemma OrderMeans(h: History)
    requires InOrder(h)
    ensures forall i | 0 <= i < |h.w.slots| && !h.w.slots[i].retired :: i < h.w.deliver <==> h.base + i in Recent(h)
  {
    forall i | 0 <= i < |h.w.slots| && !h.w.slots[i].retired
      ensures i < h.w.deliver <==> h.base + i in Recent(h)
    {
      if h.base + i in Recent(h) { assert h.base + i < h.base + h.w.deliver; }
    }
  }

  lemma {:induction false} OrderKept(accounting: bool, maxBytes: nat, ops: seq<Op>)
    requires Possible(Start(accounting, maxBytes), ops)
    ensures InOrder(After(Start(accounting, maxBytes), ops))
  {
    if |ops| > 0 {
      var init := ops[..|ops| - 1];
      OrderKept(accounting, maxBytes, init);
      RunKeeps(accounting, maxBytes, init);
      ThenKeepsOrder(After(Start(accounting, maxBytes), init), ops[|ops| - 1]);
    }
  }

  // ----- Flow control and shutdown -----

  /** A new window size takes effect as it is, moves no message, and wakes producers exactly if it changed. */
  lemma FlowExact(w: Window, capacity: nat)
    requires Inv(w) && Enabled(w, Flow(capacity)) && w.ackEvery == Interval(w.capacity)
    ensures var x := Apply(w, Flow(capacity));
      && x.capacity == capacity && x.ackEvery == Interval(capacity)
      && x == w.(capacity := x.capacity, ackEvery := x.ackEvery, wakes := x.wakes)
      && (x.wakes > w.wakes <==> capacity != w.capacity)
  {
  }

  /** Sealing and closing stop admission for good, wake everybody and keep every message; closing also gives up
      the charge. */
  lemma StopsForGood(w: Window, op: Op, x: Window)
    requires Inv(w) && Enabled(w, op) && x == Apply(w, op)
    ensures op.SealOff? ==> !x.running && x.wakes > w.wakes && x == w.(running := false, wakes := x.wakes)
    ensures op.Shut? ==> !x.running && x.closed && x.bytes == 0 && x.wakes > w.wakes && x.slots == w.slots
                         && x.first == w.first && x.tracked == w.tracked && x.cells == w.cells && x.deliver == w.deliver
    ensures !w.running ==> !x.running && !op.Add?
  {
    match op
    case Confirmed(sn, backing) => AckStopped(w, AckCount(w, sn, backing));
    case Deliver => NextExact(w);
    case Restart => PassStopped(w.(deliver := 0), |w.tracked|);
    case _ =>
  }

  lemma AckStopped(w: Window, k: nat)
    requires k <= |w.slots| <= MAX_SLOTS
    ensures AckBy(w, k).running == w.running
  {
  }

  lemma {:induction false} PassStopped(w: Window, j: nat)
    requires j <= |w.tracked|
    ensures RetireSpent(w, j).running == w.running
  {
    if j > 0 { PassStopped(w, j - 1); }
  }

  // ----- Requests by count -----

  lemma Multiple(a: nat, k: nat) returns (b: nat)
    requires k >= 1
    ensures a <= b < a + k && (b + 1) % k == 0
  {
    var q := (a + k) / k;
    assert a + k == q * k + (a + k) % k;
    b := q * k - 1;
    MultipleOf(q, k);
  }

  lemma MultipleOf(q: nat, k: nat)
    requires k >= 1
    ensures q * k % k == 0
  {
    var d := q - q * k / k;
    assert d * k == q * k % k;
    Times(d, k);
  }

  lemma Times(d: int, k: nat)
    ensures (d >= 1 ==> d * k >= k) && (d <= -1 ==> d * k <= 0 - k)
  {
  }

  lemma AsksWithin(h: History, a: nat, capacity: nat) returns (b: nat)
    requires FrameInv(h) && a + Interval(capacity) <= |h.origins| < MAX64
    requires forall i | a <= i < a + Interval(capacity) :: h.origins[i].capacity == capacity
    ensures a <= b < a + Interval(capacity) && h.origins[b].asks
  {
    b := Multiple(a, Interval(capacity));
    SmallNumber(b);
    assert Regular(h.origins[b], b);
  }

  /** Numbers that have not wrapped count the frames. */
  lemma {:induction false} SmallNumber(a: nat)
    requires a + 1 < TWO64
    ensures NumberOf(a) == a + 1
  {
    if a > 0 { SmallNumber(a - 1); }
  }

  /** By count alone: among any half a window of consecutive frames admitted at the same window size, one asks
      for an acknowledgement, as long as numbers have not wrapped. */
  lemma AsksEveryInterval(accounting: bool, maxBytes: nat, ops: seq<Op>, a: nat, capacity: nat) returns (b: nat)
    requires Possible(Start(accounting, maxBytes), ops)
    requires var h := After(Start(accounting, maxBytes), ops);
      && a + Interval(capacity) <= |h.origins| < MAX64
      && forall i | a <= i < a + Interval(capacity) :: h.origins[i].capacity == capacity
    ensures a <= b < a + Interval(capacity) && After(Start(accounting, maxBytes), ops).origins[b].asks
  {
    FramesKeep(accounting, maxBytes, ops);
    b := AsksWithin(After(Start(accounting, maxBytes), ops), a, capacity);
  }

  /** The interval of every reachable window is half its size, and at least one. */
  lemma IntervalAlways(accounting: bool, maxBytes: nat, ops: seq<Op>)
    requires Possible(Start(accounting, maxBytes), ops)
    ensures var w := After(Start(accounting, maxBytes), ops).w; w.ackEvery == Max(w.capacity / 2, 1)
  {
    FramesKeep(accounting, maxBytes, ops);
  }
}
