/** Whole runs of a send window. Frames are named by the order of their admission, so a name is never
    reused when sequence numbers wrap. */
module WindowRuns {
  import opened Words
  import opened Tables
  import opened WindowSpec
  import opened WindowLaws

  datatype Op =
    | Add(r: Request, forced: bool, step: nat, escaped: bool)
    | Confirmed(sn: u64, backing: u64)
    | Deliver
    | Restart
    | Flow(capacity: nat)
    | SealOff
    | Shut
    | Detach

  /** When the client performs each operation: receipts are detached only after closing. */
  predicate Enabled(w: Window, op: Op) {
    && |w.slots| <= MAX_SLOTS
    && match op
       case Add(r, _, _, escaped) => w.running && Available(w) && (escaped ==> r.size > 0) && w.ackEvery > 0
       case Flow(capacity) => capacity <= MAX_SLOTS
       case Detach => w.closed
       case _ => true
  }

  ghost function Apply(w: Window, op: Op): Window
    requires Enabled(w, op)
  {
    match op
    case Add(r, forced, step, escaped) => Admit(w, r, forced, step, escaped)
    case Confirmed(sn, backing) => Ack(w, sn, backing)
    case Deliver => Next(w).w
    case Restart => Reset(w)
    case Flow(capacity) => Resize(w, capacity)
    case SealOff => Seal(w)
    case Shut => Close(w)
    case Detach => Forget(w)
  }

  lemma ApplyKeeps(w: Window, op: Op)
    requires Inv(w) && Enabled(w, op)
    ensures Inv(Apply(w, op))
  {
    match op
    case Add(r, forced, step, escaped) => AdmitKeeps(w, r, forced, step, escaped);
    case Confirmed(sn, backing) => AckKeeps(w, sn, backing);
    case Deliver => NextKeeps(w);
    case Restart => ResetKeeps(w);
    case Flow(capacity) => ResizeKeeps(w, capacity);
    case SealOff => SealKeeps(w);
    case Shut => CloseKeeps(w);
    case Detach => SealKeeps(w);
  }

  // ----- The memory of released frames -----

  /** The latest 64 of a log. */
  function Latest(log: seq<u64>): seq<u64> {
    if |log| <= 64 then log else log[|log| - 64..]
  }

  function NumbersFrom(first: u64, n: nat): seq<u64>
    requires n <= MAX_SLOTS
  {
    if n == 0 then [] else NumbersFrom(first, n - 1) + [Plus(first, n - 1)]
  }

  /** Remembering one number after another keeps the latest 64 of a log. */
  lemma {:induction false} RememberedLatest(log: seq<u64>, first: u64, n: nat)
    requires n <= MAX_SLOTS
    ensures RememberRun(Latest(log), first, n) == Latest(log + NumbersFrom(first, n))
  {
    if n == 0 {
      assert log + [] == log;
    } else {
      RememberedLatest(log, first, n - 1);
      var l, x := log + NumbersFrom(first, n - 1), Plus(first, n - 1);
      assert log + NumbersFrom(first, n) == l + [x];
      assert Latest(l + [x]) == Remember(Latest(l), x);
    }
  }

  // ----- Histories -----

  /** What a frame was admitted with: the body and the flag of its request, whether its stored message asks
      for an acknowledgement, and the size of the count window at that moment. */
  datatype Origin = Origin(body: Option<string>, wanted: bool, asks: bool, capacity: nat)

  /** A window with its history: how many frames left the front, each frame's transmission limit, receipt
      cell and origin, the frames handed to a sender in order with the messages they were handed out as,
      how many of these came before the latest delivery reset, those acknowledged or retired, and the sequence
      numbers released without an acknowledgement. */
  datatype History = History(w: Window, base: nat, limits: seq<nat>, cellOf: seq<Option<nat>>, origins: seq<Origin>,
                             sent: seq<nat>, out: seq<Message>, mark: nat, acked: set<nat>, retired: set<nat>,
                             released: seq<u64>, detached: bool)

  ghost function Start(accounting: bool, maxBytes: nat): History {
    History(Fresh(accounting, maxBytes), 0, [], [], [], [], [], 0, {}, {}, [], false)
  }

  /** The frames of the first `k` slots with the given retirement mark. */
  function Frames(base: nat, slots: seq<Slot>, k: nat, retired: bool): set<nat>
    requires k <= |slots|
  {
    set i | 0 <= i < k && slots[i].retired == retired :: base + i
  }

  /** The first `k` slots leave, acknowledged or already retired. */
  ghost function Popped(h: History, k: nat, acked: bool): History
    requires k <= |h.w.slots| <= MAX_SLOTS
  {
    h.(w := Remove(h.w, k, acked), base := h.base + k,
    acked := if acked then h.acked + Frames(h.base, h.w.slots, k, false) else h.acked)
  }

  ghost function HeadReleased(h: History): History
    requires |h.w.slots| <= MAX_SLOTS
  {
    h.(w := ReleaseHead(h.w), base := h.base + RetiredRun(h.w.slots),
    released := h.released + NumbersFrom(h.w.first, RetiredRun(h.w.slots)))
  }

  ghost function Acked(h: History, k: nat): History
    requires k <= |h.w.slots| <= MAX_SLOTS
  {
    if k == 0 then h else HeadReleased(Popped(h, k, true))
  }

  ghost function SpentRetired(h: History): History {
    var x := RetireSpent(h.w.(deliver := 0), |h.w.tracked|);
    h.(w := x, retired := h.retired + Frames(h.base, x.slots, |x.slots|, true), mark := |h.sent|)
  }

  ghost function Then(h: History, op: Op): History
    requires Enabled(h.w, op)
  {
    match op
    case Add(r, forced, step, escaped) =>
      h.(w := Admit(h.w, r, forced, step, escaped),
      limits := h.limits + [if r.track.Some? then r.track.value else 0],
      cellOf := h.cellOf + [if r.track.Some? then Some(|h.w.cells|) else None],
      origins := h.origins + [Origin(r.msg.body, r.msg.ack, Admit(h.w, r, forced, step, escaped).slots[|h.w.slots|].msg.ack,
                                     h.w.capacity)])
    case Confirmed(sn, backing) => Acked(h, AckCount(h.w, sn, backing))
    case Deliver =>
      var n := Next(h.w);
      if n.msg.Some? && n.w.deliver > 0
      then h.(w := n.w, sent := h.sent + [h.base + n.w.deliver - 1], out := h.out + [n.msg.value])
      else h.(w := n.w)
    case Restart => HeadReleased(SpentRetired(h))
    case Detach => h.(w := Forget(h.w), detached := true)
    case _ => h.(w := Apply(h.w, op))
  }

  /** The history follows the window. */
  lemma ThenApplies(h: History, op: Op)
    requires Enabled(h.w, op)
    ensures Then(h, op).w == Apply(h.w, op)
  {
    match op
    case Confirmed(sn, backing) => AckedApplies(h, AckCount(h.w, sn, backing));
    case _ =>
  }

  lemma AckedApplies(h: History, k: nat)
    requires k <= |h.w.slots| <= MAX_SLOTS
    ensures Acked(h, k).w == AckBy(h.w, k)
  {
  }

  // ----- The invariant of a run -----

  ghost predicate Sized(h: History) {
    |h.limits| == |h.cellOf| == h.base + |h.w.slots|
  }

  /** Frame `a` is held and live. */
  ghost predicate HeldLive(h: History, a: nat) {
    h.base <= a < h.base + |h.w.slots| && !h.w.slots[a - h.base].retired
  }

  /** Every admitted frame is in exactly one of held-live, acknowledged and retired. */
  ghost predicate Accounted(h: History, a: nat) {
    && (HeldLive(h, a) ==> a !in h.acked && a !in h.retired)
    && (!HeldLive(h, a) ==> (a in h.acked <==> a !in h.retired))
    && (h.base <= a < h.base + |h.w.slots| && h.w.slots[a - h.base].retired ==> a in h.retired)
  }

  /** A frame with a limit is handed out at most that often. */
  ghost predicate WithinLimit(h: History, a: nat)
    requires a < |h.limits|
  {
    h.limits[a] != 0 ==> multiset(h.sent)[a] <= h.limits[a]
  }

  /** A receipt never claims what did not happen, and until receipts are detached it says all of it. */
  ghost predicate Truthful(h: History, a: nat)
    requires a < |h.cellOf|
  {
    h.cellOf[a].Some? ==>
      var c := h.cellOf[a].value;
      && c < |h.w.cells|
      && (h.w.cells[c] == Acknowledged ==> a in h.acked)
      && (h.w.cells[c] == Retired ==> a in h.retired)
      && (!h.detached && a in h.acked ==> h.w.cells[c] == Acknowledged)
      && (!h.detached && a in h.retired ==> h.w.cells[c] == Retired)
  }

  /** The tracked list has exactly the held frames with a receipt, with their true send counts. */
  ghost predicate Linked(h: History) {
    !h.detached ==>
      && (forall j | 0 <= j < |h.w.tracked| :: LinkOk(h, h.w.tracked[j]))
      && (forall a {:trigger HasEntry(h, a)} | h.base <= a < |h.cellOf| && h.cellOf[a].Some? :: HasEntry(h, a))
      && (forall a | h.base <= a < |h.cellOf| && h.cellOf[a].None? :: a < |h.limits| && h.limits[a] == 0)
  }

  ghost predicate LinkOk(h: History, e: Entry) {
    var a := h.base + Pos(h.w, e.sn);
    && a < |h.limits| && a < |h.cellOf|
    && h.limits[a] == e.max && h.cellOf[a] == Some(e.cell)
    && (e.max != 0 ==> multiset(h.sent)[a] == e.sends)
  }

  ghost predicate HasEntry(h: History, a: nat) {
    exists j | 0 <= j < |h.w.tracked| :: h.base + Pos(h.w, h.w.tracked[j].sn) == a
  }

  /** Receipt cells are never shared. */
  ghost predicate OwnCells(h: History) {
    forall a, b | 0 <= a < b < |h.cellOf| && h.cellOf[a].Some? && h.cellOf[b].Some? ::
      h.cellOf[a].value < h.cellOf[b].value
  }

  /** What a run guarantees of every frame admitted so far. */
  ghost predicate FramesOk(h: History) {
    && Sized(h)
    && (forall a | 0 <= a < |h.limits| :: Accounted(h, a) && WithinLimit(h, a) && Truthful(h, a))
    && (forall a | a in h.sent || a in h.acked || a in h.retired :: a < |h.limits|)
  }

  ghost predicate LinksOk(h: History) {
    Linked(h) && OwnCells(h) && (h.detached ==> h.w.tracked == [] && h.w.closed)
  }

  ghost predicate RunInv(h: History) {
    Core(h.w) && Counted(h.w) && Tracking(h.w) && FramesOk(h) && LinksOk(h) && h.w.ring == Latest(h.released)
  }

  // ----- Removal from the front -----

  /** `g` is `h` without its first `k` frames, whose receipts are the first `n` entries. */
  ghost predicate PoppedTo(h: History, k: nat, acked: bool, n: nat, g: History) {
    && g == h.(w := g.w, base := h.base + k, acked := g.acked)
    && k <= |h.w.slots| <= MAX_SLOTS && n <= |h.w.tracked|
    && g.w.slots == h.w.slots[k..] && g.w.first == Plus(h.w.first, k) && g.w.tracked == h.w.tracked[n..]
    && g.w.closed == h.w.closed
    && (forall j | 0 <= j < |h.w.tracked| :: j < n <==> Pos(h.w, h.w.tracked[j].sn) < k)
    && (!acked ==> forall i | 0 <= i < k :: h.w.slots[i].retired)
    && (forall a: nat :: a in g.acked <==> a in h.acked || (acked && HeldLive(h, a) && a < h.base + k))
    && |g.w.cells| == |h.w.cells|
    && (forall c | 0 <= c < |h.w.cells| :: g.w.cells[c]
          == if acked && HasCell(h.w.tracked[..n], c) && h.w.cells[c] == Retained then Acknowledged else h.w.cells[c])
  }

  lemma PoppedIs(h: History, k: nat, acked: bool)
    requires k <= |h.w.slots| <= MAX_SLOTS && Ascending(h.w.tracked, h.w.first)
    requires !acked ==> forall i | 0 <= i < k :: h.w.slots[i].retired
    ensures PoppedTo(h, k, acked, Covered(h.w.tracked, h.w.first, k), Popped(h, k, acked))
  {
    var n := Covered(h.w.tracked, h.w.first, k);
    CoveredSplit(h.w.tracked, h.w.first, k);
    forall c | 0 <= c < |h.w.cells|
      ensures Confirm(h.w.cells, h.w.tracked[..n])[c]
           == if HasCell(h.w.tracked[..n], c) && h.w.cells[c] == Retained then Acknowledged else h.w.cells[c]
    {
      ConfirmAt(h.w.cells, h.w.tracked[..n], c);
    }
    forall a: nat ensures a in Frames(h.base, h.w.slots, k, false) <==> HeldLive(h, a) && a < h.base + k {
      if h.base <= a < h.base + k { assert h.base + (a - h.base) == a; }
    }
  }

  lemma PoppedPos(h: History, k: nat, acked: bool, n: nat, g: History, sn: u64)
    requires PoppedTo(h, k, acked, n, g) && k <= Pos(h.w, sn)
    ensures g.base + Pos(g.w, sn) == h.base + Pos(h.w, sn)
  {
    PosShift(h.w.first, sn, k);
  }

  lemma PoppedLinks(h: History, k: nat, acked: bool, n: nat, g: History)
    requires LinksOk(h) && PoppedTo(h, k, acked, n, g)
    ensures LinksOk(g)
  {
    if !h.detached {
      forall j | 0 <= j < |g.w.tracked| ensures LinkOk(g, g.w.tracked[j]) {
        assert g.w.tracked[j] == h.w.tracked[j + n] && LinkOk(h, h.w.tracked[j + n]);
        PoppedPos(h, k, acked, n, g, h.w.tracked[j + n].sn);
      }
      forall a | g.base <= a < |g.cellOf| && g.cellOf[a].Some? ensures HasEntry(g, a) {
        assert HasEntry(h, a);
        var j :| 0 <= j < |h.w.tracked| && h.base + Pos(h.w, h.w.tracked[j].sn) == a;
        PoppedPos(h, k, acked, n, g, h.w.tracked[j].sn);
        assert g.w.tracked[j - n] == h.w.tracked[j];
      }
    }
  }

  lemma CellsDiffer(cellOf: seq<Option<nat>>, a: nat, b: nat)
    requires a < |cellOf| && b < |cellOf| && cellOf[a].Some? && cellOf[b].Some? && a != b
    requires forall x, y | 0 <= x < y < |cellOf| && cellOf[x].Some? && cellOf[y].Some? :: cellOf[x].value < cellOf[y].value
    ensures cellOf[a].value != cellOf[b].value
  {
  }

  lemma RemovedCell(h: History, k: nat, acked: bool, n: nat, g: History, a: nat)
    requires LinksOk(h) && PoppedTo(h, k, acked, n, g) && !h.detached && h.base <= a < h.base + k
    requires a < |h.cellOf| && h.cellOf[a].Some?
    ensures HasCell(h.w.tracked[..n], h.cellOf[a].value)
  {
    assert HasEntry(h, a);
    var j :| 0 <= j < |h.w.tracked| && h.base + Pos(h.w, h.w.tracked[j].sn) == a;
    assert LinkOk(h, h.w.tracked[j]);
    assert h.w.tracked[..n][j].cell == h.cellOf[a].value;
  }

  /** The removed entries have the cells of the removed frames. */
  lemma PoppedCell(h: History, k: nat, acked: bool, n: nat, g: History, a: nat)
    requires LinksOk(h) && PoppedTo(h, k, acked, n, g) && !h.detached && a < |h.cellOf| && h.cellOf[a].Some?
    ensures HasCell(h.w.tracked[..n], h.cellOf[a].value) <==> h.base <= a < h.base + k
  {
    if h.base <= a < h.base + k {
      RemovedCell(h, k, acked, n, g, a);
    } else {
      forall j | 0 <= j < n ensures h.w.tracked[..n][j].cell != h.cellOf[a].value {
        assert LinkOk(h, h.w.tracked[j]);
        CellsDiffer(h.cellOf, a, h.base + Pos(h.w, h.w.tracked[j].sn));
      }
    }
  }

  lemma EntryCell(h: History, a: nat, e: Entry)
    requires LinkOk(h, e) && EntryOk(h.w, e) && h.base + Pos(h.w, e.sn) == a < |h.cellOf| && h.cellOf[a].Some?
    ensures h.cellOf[a].value < |h.w.cells|
    ensures h.w.cells[h.cellOf[a].value] == if HeldLive(h, a) then Retained else Retired
  {
  }

  /** The cell of a held frame follows its slot. */
  lemma HeldCell(h: History, a: nat)
    requires Linked(h) && !h.detached && h.base <= a < |h.cellOf| && h.cellOf[a].Some?
    requires forall j | 0 <= j < |h.w.tracked| :: EntryOk(h.w, h.w.tracked[j])
    ensures h.cellOf[a].value < |h.w.cells|
    ensures h.w.cells[h.cellOf[a].value] == if HeldLive(h, a) then Retained else Retired
  {
    assert HasEntry(h, a);
    var j :| 0 <= j < |h.w.tracked| && h.base + Pos(h.w, h.w.tracked[j].sn) == a;
    assert LinkOk(h, h.w.tracked[j]) && EntryOk(h.w, h.w.tracked[j]);
    EntryCell(h, a, h.w.tracked[j]);
  }

  /** What removal does to one frame: a live one in the prefix becomes acknowledged. */
  lemma PoppedFrame(h: History, k: nat, acked: bool, n: nat, g: History, a: nat)
    requires PoppedTo(h, k, acked, n, g) && a < |h.limits| && a < |h.cellOf| && Accounted(h, a) && Truthful(h, a)
    requires h.cellOf[a].Some? ==> h.cellOf[a].value < |h.w.cells|
    requires h.cellOf[a].Some? ==>
               g.w.cells[h.cellOf[a].value]
               == if acked && !h.detached && HeldLive(h, a) && a < h.base + k then Acknowledged
                  else h.w.cells[h.cellOf[a].value]
    ensures Accounted(g, a) && Truthful(g, a)
  {
    assert HeldLive(g, a) <==> HeldLive(h, a) && a >= h.base + k;
    if h.base <= a < h.base + k && !acked { assert h.w.slots[a - h.base].retired; }
  }

  lemma PoppedFrames(h: History, k: nat, acked: bool, n: nat, g: History)
    requires FramesOk(h) && LinksOk(h) && PoppedTo(h, k, acked, n, g)
    requires forall j | 0 <= j < |h.w.tracked| :: EntryOk(h.w, h.w.tracked[j])
    ensures FramesOk(g)
  {
    forall a | 0 <= a < |g.limits| ensures Accounted(g, a) && WithinLimit(g, a) && Truthful(g, a) {
      assert Accounted(h, a) && WithinLimit(h, a) && Truthful(h, a);
      if h.cellOf[a].Some? && !h.detached {
        PoppedCell(h, k, acked, n, g, a);
        if a >= h.base { HeldCell(h, a); }
      }
      PoppedFrame(h, k, acked, n, g, a);
    }
  }

  lemma PoppedKeeps(h: History, k: nat, acked: bool)
    requires RunInv(h) && k <= |h.w.slots|
    requires !acked ==> forall i | 0 <= i < k :: h.w.slots[i].retired
    ensures RunInv(Popped(h, k, acked))
  {
    var n, g := Covered(h.w.tracked, h.w.first, k), Popped(h, k, acked);
    RemoveKeeps(h.w, k, acked);
    PoppedIs(h, k, acked);
    PoppedLinks(h, k, acked, n, g);
    PoppedFrames(h, k, acked, n, g);
  }

  lemma HeadReleasedKeeps(h: History)
    requires RunInv(h)
    ensures RunInv(HeadReleased(h))
  {
    var n := RetiredRun(h.w.slots);
    RunRetired(h.w.slots);
    if n > 0 {
      var g := h.(w := h.w.(ring := RememberRun(h.w.ring, h.w.first, n)),
                  released := h.released + NumbersFrom(h.w.first, n));
      RingBounded(h.w.ring, h.w.first, n);
      RememberedLatest(h.released, h.w.first, n);
      OtherWindow(h, g);
      PoppedKeeps(g, n, false);
      assert HeadReleased(h) == Popped(g, n, false);
    } else {
      assert h.released + NumbersFrom(h.w.first, 0) == h.released;
      assert HeadReleased(h) == h;
    }
  }

  // ----- Changes outside the queue -----

  lemma SameLinks(h: History, g: History)
    requires LinksOk(h) && g.base == h.base && g.limits == h.limits && g.cellOf == h.cellOf && g.sent == h.sent
    requires g.detached == h.detached && g.w.tracked == h.w.tracked && g.w.first == h.w.first
    requires h.w.closed ==> g.w.closed
    ensures LinksOk(g)
  {
    if !h.detached {
      forall j | 0 <= j < |g.w.tracked| ensures LinkOk(g, g.w.tracked[j]) {
        assert LinkOk(h, h.w.tracked[j]);
      }
      forall a | g.base <= a < |g.cellOf| && g.cellOf[a].Some? ensures HasEntry(g, a) {
        assert HasEntry(h, a);
        var j :| 0 <= j < |h.w.tracked| && h.base + Pos(h.w, h.w.tracked[j].sn) == a;
        assert g.base + Pos(g.w, g.w.tracked[j].sn) == a;
      }
    }
  }

  lemma OtherFrame(h: History, g: History, a: nat)
    requires a < |h.limits| && a < |h.cellOf| && g == h.(w := g.w, released := g.released)
    requires g.w.slots == h.w.slots && g.w.cells == h.w.cells
    requires Accounted(h, a) && WithinLimit(h, a) && Truthful(h, a)
    ensures Accounted(g, a) && WithinLimit(g, a) && Truthful(g, a)
  {
    assert HeldLive(g, a) <==> HeldLive(h, a);
  }

  lemma OtherFrames(h: History, g: History)
    requires FramesOk(h) && g == h.(w := g.w, released := g.released)
    requires g.w.slots == h.w.slots && g.w.cells == h.w.cells
    ensures FramesOk(g)
  {
    forall a | 0 <= a < |g.limits| ensures Accounted(g, a) && WithinLimit(g, a) && Truthful(g, a) {
      OtherFrame(h, g, a);
    }
  }

  /** A change of the window that leaves slots and receipts alone keeps the run's invariant. */
  lemma OtherWindow(h: History, g: History)
    requires RunInv(h) && g == h.(w := g.w, released := g.released) && g.w.ring == Latest(g.released)
    requires g.w.slots == h.w.slots && g.w.first == h.w.first && g.w.tracked == h.w.tracked && g.w.cells == h.w.cells
    requires g.w.next == h.w.next && g.w.deliver <= |g.w.slots| && g.w.capacity <= MAX_SLOTS
    requires h.w.closed ==> g.w.closed
    requires g.w.ackEvery >= 1 && (g.w.closed ==> !g.w.running) && |g.w.ring| <= RING_SIZE && Counted(g.w)
    ensures RunInv(g)
  {
    OtherFrames(h, g);
    SameLinks(h, g);
    forall i | 0 <= i < |g.w.slots| ensures SlotOk(g.w, i) { assert SlotOk(h.w, i); }
    forall j | 0 <= j < |g.w.tracked| ensures EntryOk(g.w, g.w.tracked[j]) { assert EntryOk(h.w, h.w.tracked[j]); }
  }

  // ----- A delivery reset -----

  lemma {:induction false} SpentCells(w: Window, j: nat, c: nat)
    requires j <= |w.tracked| && c < |w.cells| && !HasCell(w.tracked, c)
    ensures |RetireSpent(w, j).cells| == |w.cells| && RetireSpent(w, j).cells[c] == w.cells[c]
  {
    if j > 0 {
      SpentCells(w, j - 1, c);
      assert w.tracked[j - 1].cell != c;
    }
  }

  /** A frame before the window has no cell in the tracked list. */
  lemma CellElsewhere(h: History, a: nat)
    requires LinksOk(h) && a < |h.cellOf| && h.cellOf[a].Some? && (h.detached || a < h.base)
    ensures !HasCell(h.w.tracked, h.cellOf[a].value)
  {
    forall j | 0 <= j < |h.w.tracked| ensures h.w.tracked[j].cell != h.cellOf[a].value {
      assert LinkOk(h, h.w.tracked[j]);
      CellsDiffer(h.cellOf, a, h.base + Pos(h.w, h.w.tracked[j].sn));
    }
  }

  /** `g` is `h` after its spent frames were retired. */
  ghost predicate Reaped(h: History, g: History) {
    && g == h.(w := g.w, retired := g.retired, mark := g.mark)
    && g.w.tracked == h.w.tracked && g.w.first == h.w.first && g.w.closed == h.w.closed
    && |g.w.slots| == |h.w.slots| && |g.w.cells| == |h.w.cells|
    && (forall i | 0 <= i < |g.w.slots| && h.w.slots[i].retired :: g.w.slots[i].retired)
    && (forall a: nat ::
          a in g.retired <==>
          a in h.retired || (h.base <= a < h.base + |g.w.slots| && g.w.slots[a - h.base].retired))
    && (forall c | 0 <= c < |h.w.cells| && !HasCell(h.w.tracked, c) :: g.w.cells[c] == h.w.cells[c])
  }

  lemma ReapedFrame(h: History, g: History, a: nat)
    requires a < |h.limits| && a < |h.cellOf| && Sized(h) && Accounted(h, a) && Truthful(h, a) && Reaped(h, g)
    requires h.cellOf[a].Some? && (h.detached || a < h.base) ==> !HasCell(h.w.tracked, h.cellOf[a].value)
    requires h.cellOf[a].Some? && !h.detached && a >= h.base ==>
      g.w.cells[h.cellOf[a].value] == if HeldLive(g, a) then Retained else Retired
    requires h.detached ==> forall i | 0 <= i < |g.w.slots| :: g.w.slots[i].retired == h.w.slots[i].retired
    ensures Accounted(g, a) && Truthful(g, a)
  {
  }

  lemma ReapedFrames(h: History, g: History)
    requires FramesOk(h) && LinksOk(h) && Reaped(h, g) && LinksOk(g)
    requires forall j | 0 <= j < |g.w.tracked| :: EntryOk(g.w, g.w.tracked[j])
    requires h.detached ==> forall i | 0 <= i < |g.w.slots| :: g.w.slots[i].retired == h.w.slots[i].retired
    ensures FramesOk(g)
  {
    forall a | 0 <= a < |g.limits| ensures Accounted(g, a) && WithinLimit(g, a) && Truthful(g, a) {
      assert Accounted(h, a) && WithinLimit(h, a) && Truthful(h, a);
      if h.cellOf[a].Some? {
        if h.detached || a < h.base { CellElsewhere(h, a); } else { HeldCell(g, a); }
      }
      ReapedFrame(h, g, a);
    }
  }

  lemma RetiredFrames(base: nat, slots: seq<Slot>)
    ensures forall a: nat ::
              a in Frames(base, slots, |slots|, true) <==> base <= a < base + |slots| && slots[a - base].retired
  {
    forall a: nat
      ensures a in Frames(base, slots, |slots|, true) <==> base <= a < base + |slots| && slots[a - base].retired
    {
      if base <= a < base + |slots| { assert base + (a - base) == a; }
    }
  }

  lemma SpentIsReaped(h: History, v: Window)
    requires Core(v) && Counted(v) && Tracking(v) && v == h.w.(deliver := 0)
    ensures Reaped(h, SpentRetired(h)) && Spent(v, SpentRetired(h).w, |v.tracked|)
  {
    var x := RetireSpent(v, |v.tracked|);
    RetireSpentKeeps(v, |v.tracked|);
    OtherCells(v, |v.tracked|);
    ReapedBy(h, x, SpentRetired(h));
  }

  /** Frames whose slots became placeholders are reaped. */
  lemma ReapedBy(h: History, x: Window, g: History)
    requires x.tracked == h.w.tracked && x.first == h.w.first && x.closed == h.w.closed
    requires |x.slots| == |h.w.slots| && |x.cells| == |h.w.cells|
    requires forall i | 0 <= i < |x.slots| && h.w.slots[i].retired :: x.slots[i].retired
    requires forall c | 0 <= c < |h.w.cells| && !HasCell(h.w.tracked, c) :: x.cells[c] == h.w.cells[c]
    requires g == h.(w := x, retired := h.retired + Frames(h.base, x.slots, |x.slots|, true), mark := |h.sent|)
    ensures Reaped(h, g)
  {
    RetiredFrames(h.base, x.slots);
  }

  lemma OtherCells(w: Window, j: nat)
    requires j <= |w.tracked|
    ensures |RetireSpent(w, j).cells| == |w.cells|
    ensures forall c | 0 <= c < |w.cells| && !HasCell(w.tracked, c) :: RetireSpent(w, j).cells[c] == w.cells[c]
  {
    CellsCount(w, j);
    forall c | 0 <= c < |w.cells| && !HasCell(w.tracked, c) ensures RetireSpent(w, j).cells[c] == w.cells[c] {
      SpentCells(w, j, c);
    }
  }

  lemma {:induction false} CellsCount(w: Window, j: nat)
    requires j <= |w.tracked|
    ensures |RetireSpent(w, j).cells| == |w.cells|
  {
    if j > 0 { CellsCount(w, j - 1); }
  }

  lemma SpentRetiredKeeps(h: History)
    requires RunInv(h)
    ensures RunInv(SpentRetired(h)) && Unspent(SpentRetired(h).w)
  {
    var g, v := SpentRetired(h), h.w.(deliver := 0);
    RestartKeeps(h.w);
    SpentIsReaped(h, v);
    SameLinks(h, g);
    ReapedFrames(h, g);
    forall j | 0 <= j < |g.w.tracked| ensures Sendable(g.w, g.w.tracked[j]) { assert EntryOk(g.w, g.w.tracked[j]); }
  }

  // ----- Admission and delivery -----

  lemma AddedFrame(h: History, r: Request, g: History, a: nat)
    requires a < |h.limits| && a < |h.cellOf| && Sized(h) && Accounted(h, a) && WithinLimit(h, a) && Truthful(h, a)
    requires g == h.(w := g.w, limits := g.limits, cellOf := g.cellOf, origins := g.origins)
    requires |g.limits| == |g.cellOf| == |h.limits| + 1 && g.limits[a] == h.limits[a] && g.cellOf[a] == h.cellOf[a]
    requires |g.w.slots| == |h.w.slots| + 1 && g.w.slots[..|h.w.slots|] == h.w.slots
    requires |h.w.cells| <= |g.w.cells| && g.w.cells[..|h.w.cells|] == h.w.cells
    ensures Accounted(g, a) && WithinLimit(g, a) && Truthful(g, a)
  {
    assert forall i | 0 <= i < |h.w.slots| :: g.w.slots[i] == h.w.slots[i];
    assert forall c | 0 <= c < |h.w.cells| :: g.w.cells[c] == h.w.cells[c];
    assert HeldLive(g, a) <==> HeldLive(h, a);
  }

  /** An entry stays when the list only grows or its counters change. */
  lemma EntryStays(h: History, g: History, a: nat)
    requires HasEntry(h, a) && g.base == h.base && g.w.first == h.w.first && |h.w.tracked| <= |g.w.tracked|
    requires forall j | 0 <= j < |h.w.tracked| :: g.w.tracked[j].sn == h.w.tracked[j].sn
    ensures HasEntry(g, a)
  {
    var j :| 0 <= j < |h.w.tracked| && h.base + Pos(h.w, h.w.tracked[j].sn) == a;
    assert g.base + Pos(g.w, g.w.tracked[j].sn) == a;
  }

  /** `g` is `h` with one more frame. */
  ghost predicate Grown(h: History, r: Request, g: History) {
    && g == h.(w := g.w, limits := g.limits, cellOf := g.cellOf, origins := g.origins)
    && g.limits == h.limits + [if r.track.Some? then r.track.value else 0]
    && g.cellOf == h.cellOf + [if r.track.Some? then Some(|h.w.cells|) else None]
    && g.w.first == h.w.first && Pos(h.w, h.w.next) == |h.w.slots| && Sized(h) && g.w.closed == h.w.closed
    && g.w.tracked == h.w.tracked + (if r.track.Some? then [Entry(h.w.next, |h.w.cells|, r.track.value, 0)] else [])
  }

  lemma GrownLink(h: History, r: Request, g: History, e: Entry)
    requires Grown(h, r, g) && LinkOk(h, e)
    ensures LinkOk(g, e)
  {
  }

  lemma GrownNew(h: History, r: Request, g: History)
    requires Grown(h, r, g) && r.track.Some? && |h.limits| !in h.sent
    ensures LinkOk(g, g.w.tracked[|h.w.tracked|]) && HasEntry(g, |h.limits|)
  {
    assert g.base + Pos(g.w, g.w.tracked[|h.w.tracked|].sn) == |h.limits|;
  }

  lemma AddedLinks(h: History, r: Request, g: History)
    requires LinksOk(h) && (!h.detached || r.track.None?) && Grown(h, r, g) && |h.limits| !in h.sent
    requires forall a | 0 <= a < |h.cellOf| && h.cellOf[a].Some? :: h.cellOf[a].value < |h.w.cells|
    ensures LinksOk(g)
  {
    if !h.detached {
      if r.track.Some? { GrownNew(h, r, g); }
      forall j | 0 <= j < |g.w.tracked| ensures LinkOk(g, g.w.tracked[j]) {
        if j < |h.w.tracked| {
          GrownLink(h, r, g, h.w.tracked[j]);
        }
      }
      forall a {:trigger HasEntry(g, a)} | g.base <= a < |g.cellOf| && g.cellOf[a].Some? ensures HasEntry(g, a) {
        if a < |h.cellOf| {
          assert HasEntry(h, a);
          EntryStays(h, g, a);
        }
      }
    }
  }

  lemma AddedKeeps(h: History, op: Op)
    requires RunInv(h) && Inv(h.w) && op.Add? && Enabled(h.w, op)
    ensures RunInv(Then(h, op))
  {
    var g := Then(h, op);
    AdmitKeeps(h.w, op.r, op.forced, op.step, op.escaped);
    assert forall a | 0 <= a < |h.cellOf| && h.cellOf[a].Some? :: Truthful(h, a);
    assert Grown(h, op.r, g);
    AddedLinks(h, op.r, g);
    forall a | 0 <= a < |g.limits| ensures Accounted(g, a) && WithinLimit(g, a) && Truthful(g, a) {
      if a < |h.limits| {
        assert Accounted(h, a) && WithinLimit(h, a) && Truthful(h, a);
        AddedFrame(h, op.r, g, a);
      } else {
        assert HeldLive(g, a) && a !in h.sent;
      }
    }
  }

  lemma SentFrame(h: History, g: History, n: nat, a: nat)
    requires a < |h.limits| && a < |h.cellOf| && Accounted(h, a) && WithinLimit(h, a) && Truthful(h, a)
    requires g == h.(w := g.w, sent := h.sent + [h.base + n], out := g.out) && g.w.slots == h.w.slots && g.w.cells == h.w.cells
    requires a == h.base + n && h.limits[a] != 0 ==> multiset(h.sent)[a] < h.limits[a]
    ensures Accounted(g, a) && WithinLimit(g, a) && Truthful(g, a)
  {
    assert HeldLive(g, a) <==> HeldLive(h, a);
  }

  lemma SentLink(h: History, g: History, n: nat, e: Entry, f: Entry)
    requires LinkOk(h, e) && g == h.(w := g.w, sent := h.sent + [h.base + n], out := g.out) && g.w.first == h.w.first
    requires f == if Pos(h.w, e.sn) == n && e.max != 0 then e.(sends := e.sends + 1) else e
    ensures LinkOk(g, f)
  {
  }

  /** Only the entry of the frame handed out counts the transmission. */
  lemma SentLinks(h: History, g: History, n: nat, t: Option<nat>)
    requires LinksOk(h) && Ascending(h.w.tracked, h.w.first) && !h.detached
    requires t.Some? ==> t.value < |h.w.tracked| && Pos(h.w, h.w.tracked[t.value].sn) == n
    requires t.None? ==> forall j | 0 <= j < |h.w.tracked| :: Pos(h.w, h.w.tracked[j].sn) != n
    requires g == h.(w := g.w, sent := h.sent + [h.base + n], out := g.out)
    requires g.w.first == h.w.first && g.w.tracked == CountSend(h.w, t).tracked
    ensures LinksOk(g)
  {
    forall j | 0 <= j < |g.w.tracked| ensures LinkOk(g, g.w.tracked[j]) {
      if t.Some? && j != t.value {
        assert Pos(h.w, h.w.tracked[j].sn) != n;
      }
      SentLink(h, g, n, h.w.tracked[j], g.w.tracked[j]);
    }
    forall a {:trigger HasEntry(g, a)} | g.base <= a < |g.cellOf| && g.cellOf[a].Some? ensures HasEntry(g, a) {
      assert HasEntry(h, a);
      EntryStays(h, g, a);
    }
  }

  /** A frame with a limit that may still be delivered has transmissions left. */
  lemma SendsLeft(h: History, n: nat)
    requires LinksOk(h) && !h.detached && Sized(h) && Unspent(h.w)
    requires h.w.deliver <= n < |h.w.slots| && !h.w.slots[n].retired
    ensures h.limits[h.base + n] != 0 ==> multiset(h.sent)[h.base + n] < h.limits[h.base + n]
  {
    var a := h.base + n;
    if h.limits[a] != 0 {
      assert HasEntry(h, a);
      var j :| 0 <= j < |h.w.tracked| && h.base + Pos(h.w, h.w.tracked[j].sn) == a;
      assert LinkOk(h, h.w.tracked[j]) && Sendable(h.w, h.w.tracked[j]);
    }
  }

  lemma SentFrames(h: History, g: History, n: nat)
    requires FramesOk(h) && n < |h.w.slots|
    requires g == h.(w := g.w, sent := h.sent + [h.base + n], out := g.out) && g.w.slots == h.w.slots && g.w.cells == h.w.cells
    requires h.limits[h.base + n] != 0 ==> multiset(h.sent)[h.base + n] < h.limits[h.base + n]
    ensures FramesOk(g)
  {
    forall a | 0 <= a < |g.limits| ensures Accounted(g, a) && WithinLimit(g, a) && Truthful(g, a) {
      assert Accounted(h, a) && WithinLimit(h, a) && Truthful(h, a);
      SentFrame(h, g, n, a);
    }
  }

  lemma HandedRun(h: History, n: nat)
    requires RunInv(h) && Inv(h.w) && !h.detached && h.w.deliver <= n < |h.w.slots| && !h.w.slots[n].retired
    ensures RunInv(h.(w := Handed(h.w, n), sent := h.sent + [h.base + n], out := h.out + [Outgoing(h.w, n)]))
  {
    var g := h.(w := Handed(h.w, n), sent := h.sent + [h.base + n], out := h.out + [Outgoing(h.w, n)]);
    var t := EntryAt(h.w.tracked, h.w.first, n);
    CountKeeps(h.w, n, t);
    SentLinks(h, g, n, t);
    SendsLeft(h, n);
    SentFrames(h, g, n);
  }

  lemma DeliverIs(h: History)
    requires Inv(h.w)
    ensures var n := FirstLive(h.w.slots, h.w.deliver);
      Then(h, Deliver) == if n == |h.w.slots| then h.(w := h.w.(deliver := n))
                          else h.(w := Handed(h.w, n), sent := h.sent + [h.base + n], out := h.out + [Outgoing(h.w, n)])
  {
    NextExact(h.w);
  }

  lemma DeliveredKeeps(h: History)
    requires RunInv(h) && Inv(h.w) && !h.detached
    ensures RunInv(Then(h, Deliver))
  {
    var n := FirstLive(h.w.slots, h.w.deliver);
    DeliverIs(h);
    if n == |h.w.slots| {
      var g := h.(w := h.w.(deliver := n));
      assert Then(h, Deliver) == g;
      OtherWindow(h, g);
    } else {
      var g := h.(w := Handed(h.w, n), sent := h.sent + [h.base + n], out := h.out + [Outgoing(h.w, n)]);
      assert Then(h, Deliver) == g;
      HandedRun(h, n);
    }
  }

  lemma DetachedKeeps(h: History)
    requires RunInv(h) && h.w.closed
    ensures RunInv(h.(w := Forget(h.w), detached := true))
  {
    var g := h.(w := Forget(h.w), detached := true);
    forall i | 0 <= i < |g.w.slots| ensures SlotOk(g.w, i) { assert SlotOk(h.w, i); }
    forall a | 0 <= a < |g.limits| ensures Accounted(g, a) && WithinLimit(g, a) && Truthful(g, a) {
      assert Accounted(h, a) && WithinLimit(h, a) && Truthful(h, a);
      assert HeldLive(g, a) <==> HeldLive(h, a);
    }
  }

  /** Every operation keeps the run's invariant, provided nothing is delivered after receipts were
      detached: by then no sender runs any more. */
  lemma ThenKeeps(h: History, op: Op)
    requires RunInv(h) && Inv(h.w) && Enabled(h.w, op) && (h.detached ==> !op.Deliver?)
    ensures RunInv(Then(h, op)) && Inv(Then(h, op).w)
  {
    ApplyKeeps(h.w, op);
    ThenApplies(h, op);
    match op
    case Add(_, _, _, _) => AddedKeeps(h, op);
    case Confirmed(sn, backing) =>
      var k := AckCount(h.w, sn, backing);
      if k > 0 {
        PoppedKeeps(h, k, true);
        HeadReleasedKeeps(Popped(h, k, true));
      }
    case Deliver => DeliveredKeeps(h);
    case Restart =>
      SpentRetiredKeeps(h);
      HeadReleasedKeeps(SpentRetired(h));
    case Flow(capacity) => OtherWindow(h, Then(h, op));
    case SealOff => OtherWindow(h, Then(h, op));
    case Shut => CloseKeeps(h.w); OtherWindow(h, Then(h, op));
    case Detach => DetachedKeeps(h);
  }

  // ----- Main results -----

  /** The history after a run of operations, each enabled when it happens. */
  ghost function After(h: History, ops: seq<Op>): History {
    if |ops| == 0 then h
    else
      var g := After(h, ops[..|ops| - 1]);
      if Enabled(g.w, ops[|ops| - 1]) then Then(g, ops[|ops| - 1]) else g
  }

  ghost predicate Possible(h: History, ops: seq<Op>) {
    |ops| == 0
    || (var g := After(h, ops[..|ops| - 1]);
        Possible(h, ops[..|ops| - 1]) && Enabled(g.w, ops[|ops| - 1]) && (g.detached ==> !ops[|ops| - 1].Deliver?))
  }

  lemma {:induction false} RunKeeps(accounting: bool, maxBytes: nat, ops: seq<Op>)
    requires Possible(Start(accounting, maxBytes), ops)
    ensures RunInv(After(Start(accounting, maxBytes), ops)) && Inv(After(Start(accounting, maxBytes), ops).w)
  {
    if |ops| > 0 {
      RunKeeps(accounting, maxBytes, ops[..|ops| - 1]);
      ThenKeeps(After(Start(accounting, maxBytes), ops[..|ops| - 1]), ops[|ops| - 1]);
    }
  }

  /** Transmission limit: over any number of reconnects, acknowledgements, retirements and window
      changes, a frame with a limit is handed out at most that often. */
  lemma TransmissionLimit(accounting: bool, maxBytes: nat, ops: seq<Op>, a: nat)
    requires Possible(Start(accounting, maxBytes), ops)
    requires var h := After(Start(accounting, maxBytes), ops); a < |h.limits| && h.limits[a] != 0
    ensures var h := After(Start(accounting, maxBytes), ops); multiset(h.sent)[a] <= h.limits[a]
  {
    RunKeeps(accounting, maxBytes, ops);
    assert WithinLimit(After(Start(accounting, maxBytes), ops), a);
  }

  /** Every frame ever admitted is in exactly one of held-live, acknowledged and retired. */
  lemma EveryFrameAccounted(accounting: bool, maxBytes: nat, ops: seq<Op>, a: nat)
    requires Possible(Start(accounting, maxBytes), ops)
    requires a < |After(Start(accounting, maxBytes), ops).limits|
    ensures var h := After(Start(accounting, maxBytes), ops);
      && (HeldLive(h, a) || a in h.acked || a in h.retired)
      && !(HeldLive(h, a) && a in h.acked) && !(HeldLive(h, a) && a in h.retired) && !(a in h.acked && a in h.retired)
  {
    RunKeeps(accounting, maxBytes, ops);
    assert Accounted(After(Start(accounting, maxBytes), ops), a);
  }

  /** Receipts tell the truth: until they are detached a receipt reads acknowledged exactly if its
      frame is, and retired exactly if its frame is; afterwards it still claims nothing false. */
  lemma ReceiptTruth(accounting: bool, maxBytes: nat, ops: seq<Op>, a: nat)
    requires Possible(Start(accounting, maxBytes), ops)
    requires var h := After(Start(accounting, maxBytes), ops); a < |h.cellOf| && h.cellOf[a].Some?
    ensures var h := After(Start(accounting, maxBytes), ops); var c := h.cellOf[a].value;
      && c < |h.w.cells|
      && (h.w.cells[c] == Acknowledged ==> a in h.acked)
      && (h.w.cells[c] == Retired ==> a in h.retired)
      && (!h.detached ==> (a in h.acked ==> h.w.cells[c] == Acknowledged)
                          && (a in h.retired ==> h.w.cells[c] == Retired))
  {
    RunKeeps(accounting, maxBytes, ops);
    assert Truthful(After(Start(accounting, maxBytes), ops), a);
  }

  /** The ring of every reachable window holds exactly the latest 64 numbers released without an
      acknowledgement, in order. */
  lemma RingIsLatest(accounting: bool, maxBytes: nat, ops: seq<Op>)
    requires Possible(Start(accounting, maxBytes), ops)
    ensures var h := After(Start(accounting, maxBytes), ops); h.w.ring == Latest(h.released)
  {
    RunKeeps(accounting, maxBytes, ops);
  }

  /** Once receipts are detached no operation of the closed window changes a receipt. */
  lemma DetachedCells(w: Window, op: Op)
    requires Inv(w) && Enabled(w, op) && w.closed && w.tracked == []
    ensures Apply(w, op).cells == w.cells && Apply(w, op).tracked == [] && Apply(w, op).closed
  {
    match op
    case Confirmed(sn, backing) => AckDetached(w, AckCount(w, sn, backing));
    case Deliver => NextExact(w);
    case _ =>
  }

  lemma AckDetached(w: Window, k: nat)
    requires k <= |w.slots| <= MAX_SLOTS && w.tracked == []
    ensures AckBy(w, k).cells == w.cells && AckBy(w, k).tracked == [] && AckBy(w, k).closed == w.closed
  {
  }

  lemma {:induction false} SpentFinal(w: Window, j: nat, c: nat)
    requires Core(w) && Counted(w) && Tracking(w) && j <= |w.tracked| && c < |w.cells| && w.cells[c] != Retained
    ensures c < |RetireSpent(w, j).cells| && RetireSpent(w, j).cells[c] == w.cells[c]
  {
    if j > 0 {
      SpentFinal(w, j - 1, c);
      RetireSpentKeeps(w, j - 1);
      var x := RetireSpent(w, j - 1);
      assert EntryOk(x, x.tracked[j - 1]);
    }
  }

  lemma AckFinal(w: Window, k: nat, c: nat)
    requires k <= |w.slots| <= MAX_SLOTS && c < |w.cells| && w.cells[c] != Retained
    ensures c < |AckBy(w, k).cells| && AckBy(w, k).cells[c] == w.cells[c]
  {
    ConfirmAt(w.cells, w.tracked[..Covered(w.tracked, w.first, k)], c);
  }

  /** Acknowledged and retired are final: no operation changes such a receipt again. */
  lemma ReceiptFinal(w: Window, op: Op, c: nat)
    requires Inv(w) && Enabled(w, op) && c < |w.cells| && w.cells[c] != Retained
    ensures c < |Apply(w, op).cells| && Apply(w, op).cells[c] == w.cells[c]
  {
    match op
    case Confirmed(sn, backing) => AckFinal(w, AckCount(w, sn, backing), c);
    case Deliver => NextExact(w);
    case Restart => RestartKeeps(w); SpentFinal(w.(deliver := 0), |w.tracked|, c);
    case _ =>
  }
}
