/** The client's send buffer: the slot table with its numbering, events, receipts and ring. */
module AckBuffers {
  import opened Words
  import opened Tables
  import opened WindowSpec
  import WL = WindowLaws
  import opened ReceiptLists
  import opened ReleasedRings
  import opened SlotTables

  /** `x` is `w` without its first `k` slots, of which `r` is the charge; receipts are still there. */
  ghost predicate Cut(w: Window, k: nat, r: Refund, x: Window) {
    && k <= |w.slots| <= MAX_SLOTS && r.bytes <= w.bytes
    && x == w.(first := Plus(w.first, k), slots := w.slots[k..], bytes := w.bytes - r.bytes,
               deliver := if w.deliver > k then w.deliver - k else 0,
               escapeBytes := if r.escape != 0 then 0 else w.escapeBytes, wakes := w.wakes + 1)
  }

  /** With the receipts dropped, it is the window after removal. */
  lemma CutRemoves(w: Window, k: nat, r: Refund, y: Window, acknowledge: bool)
    requires Cut(w, k, r, y.(tracked := w.tracked, cells := w.cells)) && r == RemoveRefund(w, k)
    requires var n := Covered(w.tracked, w.first, k);
      y.tracked == w.tracked[n..] && y.cells == Marked(w.cells, w.tracked, n, acknowledge)
    ensures y == Remove(w, k, acknowledge)
  {
  }

  /** The slot of entry `j`. */
  ghost function Place(entries: seq<Entry>, first: u64, j: nat): nat
    requires j < |entries|
  {
    Minus(entries[j].sn, first)
  }

  /** Entries follow the slots in order, and the cursor is at the first one of slot `deliver` or later. */
  ghost predicate CursorAt(entries: seq<Entry>, at: nat, first: u64, count: nat, deliver: nat) {
    && at <= |entries|
    && (forall j, k {:trigger Place(entries, first, j), Place(entries, first, k)} | 0 <= j < k < |entries| ::
          Place(entries, first, j) < Place(entries, first, k) && entries[j].cell < entries[k].cell)
    && (forall j {:trigger Place(entries, first, j)} | 0 <= j < |entries| ::
          Place(entries, first, j) < count && (j < at <==> Place(entries, first, j) < deliver))
  }

  lemma CursorAscends(entries: seq<Entry>, at: nat, first: u64, count: nat, deliver: nat)
    requires CursorAt(entries, at, first, count, deliver)
    ensures WL.Ascending(entries, first)
  {
    forall j, k | 0 <= j < k < |entries|
      ensures Minus(entries[j].sn, first) < Minus(entries[k].sn, first) && entries[j].cell < entries[k].cell
    {
      assert Place(entries, first, j) < Place(entries, first, k);
    }
  }

  /** Dropping a prefix, with the source's rule for the cursor, keeps it there. */
  lemma CursorCut(entries: seq<Entry>, at: nat, first: u64, count: nat, deliver: nat, k: nat)
    requires CursorAt(entries, at, first, count, deliver) && k <= count <= MAX_SLOTS
    ensures var n := Covered(entries, first, k);
      CursorAt(entries[n..], if at < n then 0 else at - n, Plus(first, k), count - k,
               if deliver > k then deliver - k else 0)
  {
    CursorAscends(entries, at, first, count, deliver);
    WL.CoveredSplit(entries, first, k);
    var n := Covered(entries, first, k);
    var es := entries[n..];
    forall j | 0 <= j < |es| ensures Place(es, Plus(first, k), j) == Place(entries, first, n + j) - k {
      assert Place(entries, first, n + j) >= k;
      WL.PosShift(first, entries[n + j].sn, k);
    }
    assert forall j | 0 <= j < n :: Place(entries, first, j) < k;
  }

  /** Only the entry under the cursor can be that of the slot to deliver. */
  lemma CursorStep(entries: seq<Entry>, at: nat, first: u64, count: nat, deliver: nat)
    requires CursorAt(entries, at, first, count, deliver)
    ensures var here := at < |entries| && Minus(entries[at].sn, first) == deliver;
      && EntryAt(entries, first, deliver) == (if here then Some(at) else None)
      && CursorAt(entries, if here then at + 1 else at, first, count, deliver + 1)
  {
    var here := at < |entries| && Minus(entries[at].sn, first) == deliver;
    if at < |entries| { assert Place(entries, first, at) >= deliver; }
    if here {
      CursorAscends(entries, at, first, count, deliver);
      UniqueEntry(entries, first, deliver, at);
    } else {
      forall j | 0 <= j < |entries| ensures Minus(entries[j].sn, first) != deliver {
        assert Place(entries, first, j) < deliver || j == at
               || (at < j && Place(entries, first, at) < Place(entries, first, j));
      }
    }
  }

  ghost predicate CellsBelow(entries: seq<Entry>, n: nat) {
    forall j | 0 <= j < |entries| :: entries[j].cell < n
  }

  /** The slots, and perhaps the entries, grow by one at the end. */
  lemma CursorGrows(entries: seq<Entry>, at: nat, first: u64, count: nat, deliver: nat, sn: u64, cell: nat,
                    track: Option<nat>)
    requires CursorAt(entries, at, first, count, deliver) && deliver <= count < MAX_SLOTS && CellsBelow(entries, cell)
    requires sn == Plus(first, count)
    ensures var es := if track.Some? then entries + [Entry(sn, cell, track.value, 0)] else entries;
      CursorAt(es, at, first, count + 1, deliver)
  {
    var es := if track.Some? then entries + [Entry(sn, cell, track.value, 0)] else entries;
    assert Minus(sn, first) == count;
    forall j | 0 <= j < |entries| ensures Place(es, first, j) == Place(entries, first, j) < count { }
    assert track.Some? ==> Place(es, first, |entries|) == count;
  }

  lemma CursorRewound(entries: seq<Entry>, at: nat, first: u64, count: nat, deliver: nat)
    requires CursorAt(entries, at, first, count, deliver)
    ensures CursorAt(entries, 0, first, count, 0)
  {
  }

  lemma {:induction false} UniqueEntry(entries: seq<Entry>, first: u64, i: nat, k: nat)
    requires WL.Ascending(entries, first) && k < |entries| && Minus(entries[k].sn, first) == i
    ensures EntryAt(entries, first, i) == Some(k)
  {
    if k < |entries| - 1 { UniqueEntry(entries[..|entries| - 1], first, i, k); }
  }

  /** `x` is `w` with slot `i`, numbered `sn`, turned into a placeholder, of which `r` was the charge. */
  ghost predicate Blanked(w: Window, i: nat, sn: u64, cell: nat, r: Refund, x: Window) {
    && i < |w.slots| && w.slots[i].msg.seqNum == sn
    && r == Refund(Min(w.slots[i].size, w.bytes), if w.escapeBytes != 0 && w.escapeSeq == sn then w.escapeBytes else 0)
    && x == w.(slots := w.slots[i := Slot(Message(None, sn, false), 0, true)],
               cells := if cell < |w.cells| then w.cells[cell := Retired] else w.cells,
               bytes := w.bytes - r.bytes, escapeBytes := if r.escape != 0 then 0 else w.escapeBytes,
               lastFlagged := if w.lastFlagged == sn then 0 else w.lastFlagged, wakes := w.wakes + 1)
  }

  lemma BlankedRetires(w: Window, i: nat, sn: u64, cell: nat, r: Refund, x: Window)
    requires Blanked(w, i, sn, cell, r, x)
    ensures x == Retire(w, i, cell) && r == RetireRefund(w, i)
  {
  }

  // ----- The parts of an admission -----

  /** The message takes the next number and perhaps a request flag. */
  function NumberedNext(w: Window, r: Request, flagged: bool): Window {
    w.(next := Plus(w.next, 1), lastFlagged := if flagged then w.next else w.lastFlagged,
    sinceFlag := if flagged then 0 else w.sinceFlag + r.size)
  }

  /** A tracked admission is linked at the end, in the retained state. */
  function LinkedLast(w: Window, sn: u64, track: Option<nat>): Window {
    w.(tracked := if track.Some? then w.tracked + [Entry(sn, |w.cells|, track.value, 0)] else w.tracked,
    cells := if track.Some? then w.cells + [Retained] else w.cells)
  }

  /** The message takes the next free slot, with its charge. */
  function StoredLast(w: Window, m: Message, size: nat, escaped: bool): Window {
    w.(slots := w.slots + [Slot(m, size, false)], bytes := w.bytes + size,
    escapeSeq := if escaped then m.seqNum else w.escapeSeq,
    escapeBytes := if escaped then size else w.escapeBytes)
  }

  lemma AdmitParts(w: Window, r: Request, forced: bool, step: nat, escaped: bool, m: Message)
    requires w.ackEvery > 0 && m == Message(r.msg.body, w.next, Flagged(w, r, forced, step))
    ensures StoredLast(LinkedLast(NumberedNext(w, r, m.ack), m.seqNum, r.track), m, r.size, escaped)
         == Admit(w, r, forced, step, escaped)
  {
  }

  /** What an admission needs of the window. */
  lemma ForAdmission(w: Window)
    requires WL.Inv(w)
    ensures w.ackEvery > 0 && w.deliver <= |w.slots| <= MAX_SLOTS && w.next == Plus(w.first, |w.slots|)
    ensures CellsBelow(w.tracked, |w.cells|)
  {
    forall j | 0 <= j < |w.tracked| ensures w.tracked[j].cell < |w.cells| { assert WL.EntryOk(w, w.tracked[j]); }
  }

  lemma FreshInv(accounting: bool, maxBytes: nat)
    ensures WL.Inv(Fresh(accounting, maxBytes))
  {
  }

  /** A handoff whose refunds come after `rs`. */
  function After(rs: seq<Refund>, h: Handoff): Handoff {
    h.(refunds := rs + h.refunds)
  }

  lemma AfterNothing(h: Handoff)
    ensures After([], h) == h && After(h.refunds, h.(refunds := [])) == h
  {
    assert [] + h.refunds == h.refunds && h.refunds + [] == h.refunds;
  }

  lemma AfterMore(rs: seq<Refund>, more: seq<Refund>, h: Handoff)
    ensures After(rs, After(more, h)) == After(rs + more, h)
  {
    assert rs + (more + h.refunds) == (rs + more) + h.refunds;
  }

  /** One turn of the delivery loop that retires a frame. */
  lemma NextFenced(w: Window, j: nat, rs: seq<Refund>, y: Window)
    requires w.deliver < |w.slots| <= MAX_SLOTS && !w.slots[w.deliver].retired
    requires EntryAt(w.tracked, w.first, w.deliver) == Some(j) && Exhausted(w.tracked[j])
    requires var x := Retire(w, w.deliver, w.tracked[j].cell).(deliver := w.deliver + 1);
      y == ReleaseHead(x) && rs == [RetireRefund(w, w.deliver)] + ReleaseRefunds(x)
    ensures Next(w) == After(rs, Next(y))
    ensures |y.slots| - y.deliver < |w.slots| - w.deliver
  {
  }

  /** One turn that hands a message out. */
  lemma NextHands(w: Window, j: Option<nat>)
    requires w.deliver < |w.slots| <= MAX_SLOTS && !w.slots[w.deliver].retired
    requires j == EntryAt(w.tracked, w.first, w.deliver) && (j.Some? ==> !Exhausted(w.tracked[j.value]))
    ensures Next(w) == Handoff(CountSend(w, j).(deliver := w.deliver + 1), Some(Outgoing(w, w.deliver)), [])
  {
  }

  /** One turn that passes a placeholder. */
  lemma NextSkips(w: Window)
    requires w.deliver < |w.slots| <= MAX_SLOTS && w.slots[w.deliver].retired
    ensures Next(w) == Next(w.(deliver := w.deliver + 1))
  {
  }

  /** Counting a transmission moves no entry. */
  lemma SendsAside(w: Window, at: nat, deliver: nat, j: Option<nat>)
    requires CursorAt(w.tracked, at, w.first, |w.slots|, deliver) && (j.Some? ==> j.value < |w.tracked|)
    ensures CursorAt(CountSend(w, j).tracked, at, w.first, |w.slots|, deliver)
  {
    var es := CountSend(w, j).tracked;
    forall i | 0 <= i < |es| ensures Place(es, w.first, i) == Place(w.tracked, w.first, i) { }
  }

  datatype Drain = Drained | Unfinished(unacked: nat, first: u64, last: u64, closed: bool) | Waiting(wakes: nat)

  /** The outermost live slots hold the first and last live messages. */
  lemma {:induction false} LiveEnds(slots: seq<Slot>, first: nat, last: nat)
    requires first <= last < |slots| && !slots[first].retired && !slots[last].retired
    requires (forall i | 0 <= i < first :: slots[i].retired) && (forall i | last < i < |slots| :: slots[i].retired)
    ensures |Live(slots)| > 0
    ensures Live(slots)[0] == slots[first].msg && Live(slots)[|Live(slots)| - 1] == slots[last].msg
  {
    var init := slots[..|slots| - 1];
    if last < |slots| - 1 {
      LiveEnds(init, first, last);
    } else if first < last {
      var prev := LastLive(slots, first, last);
      LiveEnds(init, first, prev);
    } else {
      NoneLive(init);
    }
  }

  lemma {:induction false} LastLive(slots: seq<Slot>, first: nat, last: nat) returns (prev: nat)
    requires first < last < |slots| && !slots[first].retired
    ensures first <= prev < last && !slots[prev].retired && forall i | prev < i < last :: slots[i].retired
    decreases last
  {
    if slots[last - 1].retired {
      prev := LastLive(slots, first, last - 1);
    } else {
      prev := last - 1;
    }
  }

  lemma {:induction false} NoneLive(slots: seq<Slot>)
    requires forall i | 0 <= i < |slots| :: slots[i].retired
    ensures Live(slots) == []
  {
    if |slots| > 0 { NoneLive(slots[..|slots| - 1]); }
  }

  class AckBuffer {
    const maxBytes: nat
    const table: SlotTable
    const receipts: ReceiptList
    const released: ReleasedRing
    var nextSeqNum: u64
    var ackEvery: nat
    var nextIndexToDeliver: nat
    var currentCapacity: nat
    var isRunning: bool
    var isClosed: bool
    var isAvailable: bool
    var isReadyToDeliver: bool
    var isEmpty: bool
    var lastFlaggedSeq: u64
    var bytesSinceFlag: nat
    var wakes: nat

    /** The window this buffer stands for. */
    ghost function View(): Window
      reads this, table, receipts, released
    {
      Window(table.firstSeqNum, nextSeqNum, table.slots, nextIndexToDeliver, currentCapacity, ackEvery, isRunning,
             isClosed, table.accounting, maxBytes, table.bytes, table.escapeSeq, table.escapeBytes, lastFlaggedSeq,
             bytesSinceFlag, receipts.entries, receipts.cells, released.contents, wakes)
    }

    ghost predicate Rep()
      reads this, table, table.store, table.store.buff
    {
      && table.Valid() && currentCapacity <= table.store.buff.Length
      && isAvailable == (|table.slots| < currentCapacity)
    }

    /** The delivery events tell whether a message is to be delivered. */
    ghost predicate Events()
      reads this, table
    {
      isReadyToDeliver == (nextIndexToDeliver < |table.slots|) && isEmpty == !isReadyToDeliver
    }

    /** During a handoff a set event may be out of date. */
    ghost predicate Loose()
      reads this, table
    {
      (nextIndexToDeliver < |table.slots| ==> isReadyToDeliver) && isEmpty == !isReadyToDeliver
    }

    /** All parts are in order, with the cursor at slot `deliver`. */
    ghost predicate SoundAt(deliver: nat)
      reads this, table, table.store, table.store.buff, receipts, receipts.chain, released, released.seqs
    {
      && Rep() && receipts.Valid() && released.Valid()
      && CursorAt(receipts.entries, receipts.at, table.firstSeqNum, |table.slots|, deliver)
    }

    ghost predicate Sound()
      reads this, table, table.store, table.store.buff, receipts, receipts.chain, released, released.seqs
    {
      SoundAt(nextIndexToDeliver)
    }

    ghost predicate Valid()
      reads this, table, table.store, table.store.buff, receipts, receipts.chain, released, released.seqs
    {
      Sound() && Events() && WL.Inv(View())
    }

    constructor (maxBytes: nat, accounting: bool)
      ensures Valid() && fresh(table) && fresh(table.store) && fresh(table.store.buff)
      ensures fresh(receipts) && fresh(released) && fresh(released.seqs)
      ensures View() == Fresh(accounting, maxBytes) && receipts.chain == []
    {
      this.maxBytes := maxBytes;
      nextSeqNum, nextIndexToDeliver, currentCapacity, ackEvery := 1, 0, 1, 1;
      isRunning, isClosed := true, false;
      isAvailable, isReadyToDeliver, isEmpty := true, false, true;
      lastFlaggedSeq, bytesSinceFlag, wakes := 0, 0, 0;
      table := new SlotTable(accounting);
      receipts := new ReceiptList();
      released := new ReleasedRing();
      new;
      FreshInv(accounting, maxBytes);
      assert View() == Fresh(accounting, maxBytes);
    }

    // ----- Removal from the front -----

    /** Takes the first `k` slots out of the table, and reclaims backing it no longer needs. */
    method TakeOut(k: nat) returns (r: Refund)
      requires table.Valid() && currentCapacity <= table.store.buff.Length && 1 <= k <= |table.slots|
      modifies table, table.store, table.store.buff
      ensures table.Valid() && currentCapacity <= table.store.buff.Length
      ensures fresh(table.store.buff) || table.store.buff == old(table.store.buff)
      ensures table.slots == old(table.slots)[k..] && table.firstSeqNum == Plus(old(table.firstSeqNum), k)
      ensures r == RemoveRefund(old(View()), k) && table.escapeSeq == old(table.escapeSeq)
      ensures table.bytes == old(table.bytes) - r.bytes
      ensures table.escapeBytes == if r.escape != 0 then 0 else old(table.escapeBytes)
    {
      r := table.RemovePrefix(k);
      if table.store.count <= currentCapacity {
        table.Shrink(currentCapacity);
      }
    }

    /** The delivery index, availability and events after `k` slots left a table that now holds `count`. */
    method MoveBack(k: nat, count: nat)
      modifies this
      ensures isAvailable == (count < currentCapacity) && wakes == old(wakes) + 1
      ensures nextIndexToDeliver == if old(nextIndexToDeliver) > k then old(nextIndexToDeliver) - k else 0
      ensures isReadyToDeliver == (old(isReadyToDeliver) && nextIndexToDeliver < count)
      ensures isEmpty == (old(isEmpty) || nextIndexToDeliver >= count)
      ensures unchanged(`nextSeqNum, `ackEvery, `currentCapacity, `isRunning, `isClosed, `lastFlaggedSeq,
                        `bytesSinceFlag)
    {
      isAvailable := count < currentCapacity;
      wakes := wakes + 1;
      nextIndexToDeliver := if nextIndexToDeliver > k then nextIndexToDeliver - k else 0;
      if nextIndexToDeliver >= count {
        isReadyToDeliver := false;
        isEmpty := true;
      }
    }

    /** Removes the first `k` slots: charges, escape, delivery index, availability and events. */
    method RemovePrefix(k: nat) returns (r: Refund)
      requires Rep() && 1 <= k <= |table.slots|
      modifies this, table, table.store, table.store.buff
      ensures Rep() && (fresh(table.store.buff) || table.store.buff == old(table.store.buff))
      ensures (old(Events()) ==> Events()) && (old(Loose()) ==> Loose())
      ensures r == RemoveRefund(old(View()), k) && Cut(old(View()), k, r, View())
    {
      r := TakeOut(k);
      MoveBack(k, table.store.count);
    }

    /** Removes the first `k` slots and unlinks their receipts. */
    method CutPrefix(k: nat, acknowledge: bool) returns (r: Refund)
      requires Sound() && 1 <= k <= |table.slots|
      modifies this, table, table.store, table.store.buff, receipts, receipts.chain
      ensures Sound() && (fresh(table.store.buff) || table.store.buff == old(table.store.buff))
      ensures forall i | 0 <= i < |receipts.chain| :: receipts.chain[i] in old(receipts.chain)
      ensures (old(Events()) ==> Events()) && (old(Loose()) ==> Loose())
      ensures r == RemoveRefund(old(View()), k)
      ensures var w, n := old(View()), Covered(old(receipts.entries), old(table.firstSeqNum), k);
        && Cut(w, k, r, View().(tracked := w.tracked, cells := w.cells))
        && receipts.entries == w.tracked[n..] && receipts.cells == Marked(w.cells, w.tracked, n, acknowledge)
    {
      var first := table.firstSeqNum;
      ghost var count, deliver := |table.slots|, nextIndexToDeliver;
      r := RemovePrefix(k);
      DropReceipts(first, k, acknowledge, count, deliver);
    }

    /** Removes the first `k` slots with their receipts, acknowledged or not. */
    method DropPrefix(k: nat, acknowledge: bool) returns (r: Refund)
      requires Sound() && 1 <= k <= |table.slots|
      modifies this, table, table.store, table.store.buff, receipts, receipts.chain
      ensures Sound() && (fresh(table.store.buff) || table.store.buff == old(table.store.buff))
      ensures forall i | 0 <= i < |receipts.chain| :: receipts.chain[i] in old(receipts.chain)
      ensures (old(Events()) ==> Events()) && (old(Loose()) ==> Loose())
      ensures r == RemoveRefund(old(View()), k) && View() == Remove(old(View()), k, acknowledge)
    {
      ghost var w := View();
      r := CutPrefix(k, acknowledge);
      CutRemoves(w, k, r, View(), acknowledge);
    }

    /** The receipts of `k` slots that have left the table starting at `first` leave too. */
    method DropReceipts(first: u64, k: nat, acknowledge: bool, ghost count: nat, ghost deliver: nat)
      requires Rep() && receipts.Valid() && released.Valid() && k <= count <= MAX_SLOTS
      requires CursorAt(receipts.entries, receipts.at, first, count, deliver)
      requires table.firstSeqNum == Plus(first, k) && |table.slots| == count - k
      requires nextIndexToDeliver == if deliver > k then deliver - k else 0
      modifies receipts, receipts.chain
      ensures Sound() && forall i | 0 <= i < |receipts.chain| :: receipts.chain[i] in old(receipts.chain)
      ensures var w, n := old(View()), Covered(old(receipts.entries), first, k);
        View() == w.(tracked := w.tracked[n..], cells := Marked(w.cells, w.tracked, n, acknowledge))
    {
      CursorCut(receipts.entries, receipts.at, first, count, deliver, k);
      receipts.Drop(first, k, acknowledge);
    }

    /** Remembers that the first `n` numbers leave without an acknowledgement. */
    method RememberReleased(n: nat)
      requires released.Valid() && n <= MAX_SLOTS
      modifies released, released.seqs
      ensures released.Valid() && released.contents == RememberRun(old(released.contents), table.firstSeqNum, n)
    {
      var i := 0;
      while i < n
        invariant i <= n && released.Valid()
        invariant released.contents == RememberRun(old(released.contents), table.firstSeqNum, i)
      {
        released.Add(Plus(table.firstSeqNum, i));
        i := i + 1;
      }
    }

    /** Retired slots at the front leave: nothing will acknowledge them. */
    method ReleaseRetiredHead() returns (rs: seq<Refund>)
      requires Sound()
      modifies this, table, table.store, table.store.buff, receipts, receipts.chain, released, released.seqs
      ensures Sound() && (fresh(table.store.buff) || table.store.buff == old(table.store.buff))
      ensures (forall i | 0 <= i < |receipts.chain| :: receipts.chain[i] in old(receipts.chain))
      ensures (old(Events()) ==> Events()) && (old(Loose()) ==> Loose())
      ensures rs == ReleaseRefunds(old(View())) && View() == ReleaseHead(old(View()))
    {
      var n := table.RetiredHead();
      if n == 0 {
        return [];
      }
      RememberReleased(n);
      var r := DropPrefix(n, false);
      rs := [r];
    }

    // ----- Acknowledgement -----

    /** The checks of an acknowledgement, and how many slots it removes. */
    method Check(sn: u64) returns (outcome: AckOutcome, k: nat)
      requires Rep() && released.Valid()
      ensures outcome == AckVerdict(View(), sn, table.store.buff.Length)
      ensures k == AckCount(View(), sn, table.store.buff.Length)
    {
      k := 0;
      var first, backing := table.firstSeqNum, table.store.buff.Length;
      var index := Minus(sn, first);
      if index >= table.store.count {
        var known := released.Has(sn);
        if known {
          return Ignored, k;
        }
      }
      if sn < first && Minus(backing, Minus(MAX64, first)) <= sn {
        return Rejected(Unexpected), k;
      }
      if sn >= nextSeqNum && sn != MAX64 && nextSeqNum != 0 {
        return Rejected(Unexpected), k;
      }
      if index >= backing || index >= table.store.count {
        return Rejected(NotInBuffer), k;
      }
      if index >= nextIndexToDeliver && !(nextIndexToDeliver == 0 && index == 0) {
        return Rejected(NotDelivered), k;
      }
      return Applied, index + 1;
    }

    /** The first `k` slots are acknowledged. */
    method AckPrefix(k: nat) returns (rs: seq<Refund>)
      requires Sound() && 1 <= k <= |table.slots|
      modifies this, table, table.store, table.store.buff, receipts, receipts.chain, released, released.seqs
      ensures Sound() && (fresh(table.store.buff) || table.store.buff == old(table.store.buff))
      ensures (forall i | 0 <= i < |receipts.chain| :: receipts.chain[i] in old(receipts.chain))
      ensures (old(Events()) ==> Events()) && (old(Loose()) ==> Loose())
      ensures rs == AckRefunds(old(View()), k) && View() == AckBy(old(View()), k)
    {
      var r := DropPrefix(k, true);
      var more := ReleaseRetiredHead();
      rs := [r] + more;
    }

    /** An acknowledgement that passed its checks for `k` slots, or for none. */
    method AcknowledgeBy(k: nat) returns (rs: seq<Refund>)
      requires Sound() && k <= |table.slots|
      modifies this, table, table.store, table.store.buff, receipts, receipts.chain, released, released.seqs
      ensures Sound() && (fresh(table.store.buff) || table.store.buff == old(table.store.buff))
      ensures forall i | 0 <= i < |receipts.chain| :: receipts.chain[i] in old(receipts.chain)
      ensures (old(Events()) ==> Events()) && (old(Loose()) ==> Loose())
      ensures rs == AckRefunds(old(View()), k) && View() == AckBy(old(View()), k)
    {
      rs := [];
      if k > 0 {
        rs := AckPrefix(k);
      }
    }

    method Ack(sn: u64) returns (outcome: AckOutcome, rs: seq<Refund>)
      requires Valid()
      modifies this, table, table.store, table.store.buff, receipts, receipts.chain, released, released.seqs
      ensures Valid() && (fresh(table.store.buff) || table.store.buff == old(table.store.buff))
      ensures forall i | 0 <= i < |receipts.chain| :: receipts.chain[i] in old(receipts.chain)
      ensures outcome == AckVerdict(old(View()), sn, old(table.store.buff.Length))
      ensures View() == WindowSpec.Ack(old(View()), sn, old(table.store.buff.Length))
      ensures rs == AckRefunds(old(View()), AckCount(old(View()), sn, old(table.store.buff.Length)))
    {
      ghost var w := View();
      var k;
      outcome, k := Check(sn);
      rs := AcknowledgeBy(k);
      WL.AckByKeeps(w, k);
    }

    // ----- Transmission limits -----

    /** The receipt of a frame reads retired, and the frame is no longer the held request: it produces
        no acknowledgement. */
    method MarkRetired(sn: u64, cell: nat, ghost deliver: nat)
      requires SoundAt(deliver)
      modifies `lastFlaggedSeq, `wakes, receipts`cells
      ensures SoundAt(deliver)
      ensures var w := old(View());
        View() == w.(cells := if cell < |w.cells| then w.cells[cell := Retired] else w.cells,
                     lastFlagged := if w.lastFlagged == sn then 0 else w.lastFlagged, wakes := w.wakes + 1)
    {
      receipts.Store(cell, Retired);
      ForgetFlag(sn, deliver);
    }

    method ForgetFlag(sn: u64, ghost deliver: nat)
      requires SoundAt(deliver)
      modifies `lastFlaggedSeq, `wakes
      ensures SoundAt(deliver)
      ensures var w := old(View());
        View() == w.(lastFlagged := if w.lastFlagged == sn then 0 else w.lastFlagged, wakes := w.wakes + 1)
    {
      if lastFlaggedSeq == sn {
        lastFlaggedSeq := 0;
      }
      wakes := wakes + 1;
    }

    /** Slot `index` becomes a placeholder, and its receipt reads retired. */
    method RetireSlot(index: nat, sn: u64, cell: nat, ghost deliver: nat) returns (r: Refund)
      requires SoundAt(deliver) && index < |table.slots| && Minus(sn, table.firstSeqNum) == index
      modifies `lastFlaggedSeq, `wakes, receipts`cells, table, table.store, table.store.buff
      ensures SoundAt(deliver) && table.store.buff == old(table.store.buff)
      ensures Blanked(old(View()), index, sn, cell, r, View())
    {
      MarkRetired(sn, cell, deliver);
      r := table.Retire(index, sn);
    }

    // ----- Delivery -----

    /** The tracked entry of the slot to deliver, passed by the cursor. */
    method StepCursor() returns (entry: Admission?, ghost j: Option<nat>)
      requires Sound() && nextIndexToDeliver < |table.slots|
      modifies receipts`cursor, receipts`at
      ensures SoundAt(nextIndexToDeliver + 1) && View() == old(View())
      ensures j == EntryAt(receipts.entries, table.firstSeqNum, nextIndexToDeliver)
      ensures entry != null <==> j.Some?
      ensures j.Some? ==> entry == receipts.chain[j.value]
    {
      j := EntryAt(receipts.entries, table.firstSeqNum, nextIndexToDeliver);
      CursorStep(receipts.entries, receipts.at, table.firstSeqNum, |table.slots|, nextIndexToDeliver);
      if receipts.cursor != null {
        assert LinkAt(receipts.chain, receipts.entries, receipts.at);
      }
      entry := receipts.Step(table.firstSeqNum, nextIndexToDeliver);
    }

    /** The message to hand out for slot `index`. */
    method Draw(index: nat) returns (m: Message)
      requires Rep() && index < |table.slots|
      ensures m == Outgoing(View(), index)
    {
      assert SlotAt(table.slots, table.store.items, table.sizes, table.firstSeqNum, table.retired, index);
      m := table.store.At(index);
      if !isRunning {
        var last := table.OnlyRetiredAfterIndex(index);
        if last {
          m := m.(ack := true);
        }
      }
    }

    /** One more transmission of a limited entry. */
    method Count(entry: Admission?, ghost j: Option<nat>, ghost deliver: nat)
      requires SoundAt(deliver) && (entry != null <==> j.Some?)
      requires j.Some? ==> j.value < |receipts.chain| && entry == receipts.chain[j.value]
      modifies receipts`entries, if entry == null then {} else {entry}
      ensures SoundAt(deliver) && View() == CountSend(old(View()), j)
    {
      SendsAside(View(), receipts.at, deliver, j);
      if entry != null {
        assert LinkAt(receipts.chain, receipts.entries, j.value);
        if entry.max != 0 {
          receipts.CountSend(entry, j.value);
        }
      }
    }

    method PassSlot()
      requires SoundAt(nextIndexToDeliver + 1) && Loose() && nextIndexToDeliver < |table.slots|
      modifies `nextIndexToDeliver, `isReadyToDeliver, `isEmpty
      ensures Sound() && Events() && View() == old(View()).(deliver := old(nextIndexToDeliver) + 1)
    {
      Advance();
      ClearIfDone();
    }

    method ClearIfDone()
      requires Sound() && Loose()
      modifies `isReadyToDeliver, `isEmpty
      ensures Sound() && Events() && View() == old(View())
    {
      if nextIndexToDeliver >= table.store.count {
        isReadyToDeliver := false;
        isEmpty := true;
      }
    }

    /** The slot to deliver is passed, as one more transmission of its entry. */
    method Deliver(entry: Admission?, ghost j: Option<nat>)
      requires SoundAt(nextIndexToDeliver + 1) && Loose() && nextIndexToDeliver < |table.slots|
      requires (entry != null <==> j.Some?)
      requires j.Some? ==> j.value < |receipts.chain| && entry == receipts.chain[j.value]
      modifies `nextIndexToDeliver, `isReadyToDeliver, `isEmpty, receipts`entries, if entry == null then {} else {entry}
      ensures Sound() && Events() && table.store.buff == old(table.store.buff) && receipts.chain == old(receipts.chain)
      ensures View() == CountSend(old(View()), j).(deliver := old(nextIndexToDeliver) + 1)
    {
      Count(entry, j, nextIndexToDeliver + 1);
      PassSlot();
    }

    /** The message of the slot to deliver. */
    method HandOut(entry: Admission?, ghost j: Option<nat>) returns (m: Message)
      requires SoundAt(nextIndexToDeliver + 1) && Loose() && nextIndexToDeliver < |table.slots|
      requires j == EntryAt(receipts.entries, table.firstSeqNum, nextIndexToDeliver)
      requires (entry != null <==> j.Some?) && (j.Some? ==> entry == receipts.chain[j.value])
      requires !table.slots[nextIndexToDeliver].retired && (j.Some? ==> !Exhausted(receipts.entries[j.value]))
      modifies this, receipts`entries, if entry == null then {} else {entry}
      ensures Sound() && Events() && table.store.buff == old(table.store.buff) && receipts.chain == old(receipts.chain)
      ensures Handoff(View(), Some(m), []) == Next(old(View()))
    {
      NextHands(View(), j);
      m := Draw(nextIndexToDeliver);
      Deliver(entry, j);
    }

    /** A placeholder is passed. */
    method Skip()
      requires SoundAt(nextIndexToDeliver + 1) && Loose() && nextIndexToDeliver < |table.slots|
      requires table.slots[nextIndexToDeliver].retired
      modifies `nextIndexToDeliver
      ensures Sound() && Loose() && Next(old(View())) == Next(View())
      ensures nextIndexToDeliver == old(nextIndexToDeliver) + 1
    {
      NextSkips(View());
      Advance();
    }

    /** A frame that had its last transmission is retired instead of sent. */
    method Fence(entry: Admission, ghost j: nat) returns (rs: seq<Refund>)
      requires SoundAt(nextIndexToDeliver + 1) && Loose() && nextIndexToDeliver < |table.slots|
      requires EntryAt(receipts.entries, table.firstSeqNum, nextIndexToDeliver) == Some(j) && entry == receipts.chain[j]
      requires !table.slots[nextIndexToDeliver].retired && Exhausted(receipts.entries[j])
      modifies this, table, table.store, table.store.buff, receipts, receipts.chain, released, released.seqs
      ensures Sound() && Loose() && (fresh(table.store.buff) || table.store.buff == old(table.store.buff))
      ensures forall i | 0 <= i < |receipts.chain| :: receipts.chain[i] in old(receipts.chain)
      ensures Next(old(View())) == After(rs, Next(View()))
      ensures |table.slots| - nextIndexToDeliver < old(|table.slots| - nextIndexToDeliver)
    {
      ghost var w := View();
      rs := RetireAway(entry, j);
      NextFenced(w, j, rs, View());
    }

    method RetireAway(entry: Admission, ghost j: nat) returns (rs: seq<Refund>)
      requires SoundAt(nextIndexToDeliver + 1) && Loose() && nextIndexToDeliver < |table.slots|
      requires EntryAt(receipts.entries, table.firstSeqNum, nextIndexToDeliver) == Some(j) && entry == receipts.chain[j]
      modifies this, table, table.store, table.store.buff, receipts, receipts.chain, released, released.seqs
      ensures Sound() && Loose() && (fresh(table.store.buff) || table.store.buff == old(table.store.buff))
      ensures forall i | 0 <= i < |receipts.chain| :: receipts.chain[i] in old(receipts.chain)
      ensures var i, w := old(nextIndexToDeliver), old(View());
        var x := Retire(w, i, w.tracked[j].cell).(deliver := i + 1);
        View() == ReleaseHead(x) && rs == [RetireRefund(w, i)] + ReleaseRefunds(x)
    {
      var r := RetireNext(entry, j);
      var more := ReleaseRetiredHead();
      rs := [r] + more;
    }

    method RetireNext(entry: Admission, ghost j: nat) returns (r: Refund)
      requires SoundAt(nextIndexToDeliver + 1) && Loose() && nextIndexToDeliver < |table.slots|
      requires EntryAt(receipts.entries, table.firstSeqNum, nextIndexToDeliver) == Some(j) && entry == receipts.chain[j]
      modifies `lastFlaggedSeq, `wakes, `nextIndexToDeliver, receipts`cells, table, table.store, table.store.buff
      ensures Sound() && Loose() && table.store.buff == old(table.store.buff)
      ensures var i, w := old(nextIndexToDeliver), old(View());
        r == RetireRefund(w, i) && View() == Retire(w, i, w.tracked[j].cell).(deliver := i + 1)
    {
      assert LinkAt(receipts.chain, receipts.entries, j);
      ghost var w, i := View(), nextIndexToDeliver;
      r := RetireSlot(nextIndexToDeliver, entry.sn, entry.cell, nextIndexToDeliver + 1);
      BlankedRetires(w, i, entry.sn, entry.cell, r, View());
      Advance();
    }

    method Advance()
      requires SoundAt(nextIndexToDeliver + 1) && Loose()
      modifies `nextIndexToDeliver
      ensures Sound() && Loose() && View() == old(View()).(deliver := old(nextIndexToDeliver) + 1)
    {
      nextIndexToDeliver := nextIndexToDeliver + 1;
    }

    /** What happens to the slot to deliver, whose entry the cursor has passed. */
    method Act(entry: Admission?, ghost j: Option<nat>) returns (m: Option<Message>, rs: seq<Refund>)
      requires SoundAt(nextIndexToDeliver + 1) && Loose() && nextIndexToDeliver < |table.slots|
      requires j == EntryAt(receipts.entries, table.firstSeqNum, nextIndexToDeliver)
      requires (entry != null <==> j.Some?) && (j.Some? ==> entry == receipts.chain[j.value])
      modifies this, table, table.store, table.store.buff, receipts, receipts.chain, released, released.seqs
      ensures Sound() && Loose() && (fresh(table.store.buff) || table.store.buff == old(table.store.buff))
      ensures forall i | 0 <= i < |receipts.chain| :: receipts.chain[i] in old(receipts.chain)
      ensures m.Some? ==> Events() && Handoff(View(), m, rs) == Next(old(View()))
      ensures m.None? ==> Next(old(View())) == After(rs, Next(View()))
                          && |table.slots| - nextIndexToDeliver < old(|table.slots| - nextIndexToDeliver)
    {
      m, rs := None, [];
      if table.IsRetired(nextIndexToDeliver) {
        Skip();
      } else {
        m, rs := Send(entry, j);
      }
    }

    /** A live slot is handed out, unless its entry is at its limit. */
    method Send(entry: Admission?, ghost j: Option<nat>) returns (m: Option<Message>, rs: seq<Refund>)
      requires SoundAt(nextIndexToDeliver + 1) && Loose() && nextIndexToDeliver < |table.slots|
      requires j == EntryAt(receipts.entries, table.firstSeqNum, nextIndexToDeliver)
      requires (entry != null <==> j.Some?) && (j.Some? ==> entry == receipts.chain[j.value])
      requires !table.slots[nextIndexToDeliver].retired
      modifies this, table, table.store, table.store.buff, receipts, receipts.chain, released, released.seqs
      ensures Sound() && Loose() && (fresh(table.store.buff) || table.store.buff == old(table.store.buff))
      ensures forall i | 0 <= i < |receipts.chain| :: receipts.chain[i] in old(receipts.chain)
      ensures m.Some? ==> Events() && Handoff(View(), m, rs) == Next(old(View()))
      ensures m.None? ==> Next(old(View())) == After(rs, Next(View()))
                          && |table.slots| - nextIndexToDeliver < old(|table.slots| - nextIndexToDeliver)
    {
      m, rs := None, [];
      assert entry != null ==> LinkAt(receipts.chain, receipts.entries, j.value);
      if entry != null && entry.max != 0 && entry.sends >= entry.max {
        rs := Fence(entry, j.value);
      } else {
        var out := HandOut(entry, j);
        m := Some(out);
      }
    }

    /** One turn of the delivery loop: hands out a message, or passes or retires a slot. */
    method Turn() returns (m: Option<Message>, rs: seq<Refund>)
      requires Sound() && Loose() && nextIndexToDeliver < |table.slots|
      modifies this, table, table.store, table.store.buff, receipts, receipts.chain, released, released.seqs
      ensures Sound() && Loose() && (fresh(table.store.buff) || table.store.buff == old(table.store.buff))
      ensures forall i | 0 <= i < |receipts.chain| :: receipts.chain[i] in old(receipts.chain)
      ensures m.Some? ==> Events() && Handoff(View(), m, rs) == Next(old(View()))
      ensures m.None? ==> Next(old(View())) == After(rs, Next(View()))
                          && |table.slots| - nextIndexToDeliver < old(|table.slots| - nextIndexToDeliver)
    {
      var entry, j := StepCursor();
      m, rs := Act(entry, j);
    }

    /** Repeats turns until a message is handed out or none is left. */
    method Turns() returns (m: Option<Message>, rs: seq<Refund>)
      requires Sound() && Loose()
      modifies this, table, table.store, table.store.buff, receipts, receipts.chain, released, released.seqs
      ensures Sound() && Loose() && (fresh(table.store.buff) || table.store.buff == old(table.store.buff))
      ensures forall i | 0 <= i < |receipts.chain| :: receipts.chain[i] in old(receipts.chain)
      ensures (m.Some? ==> Events())
      ensures Handoff(View(), m, rs) == Next(old(View()))
      ensures m.None? ==> nextIndexToDeliver >= |table.slots|
    {
      m, rs := None, [];
      AfterNothing(Next(View()));
      while m.None? && nextIndexToDeliver < table.store.count
        invariant Sound() && Loose() && (m.Some? ==> Events())
        invariant fresh(table.store.buff) || table.store.buff == old(table.store.buff)
        invariant forall i | 0 <= i < |receipts.chain| :: receipts.chain[i] in old(receipts.chain)
        invariant Next(old(View())) == if m.Some? then Handoff(View(), m, rs) else After(rs, Next(View()))
        decreases m.None?, |table.slots| - nextIndexToDeliver
      {
        ghost var w, before := View(), rs;
        var more;
        m, more := Turn();
        rs := rs + more;
        AfterMore(before, more, Next(View()));
      }
      AfterNothing(Handoff(View(), None, rs));
    }

    /** The next live message to send. In a lawful buffer the fence of the loop never fires. */
    method NextToDeliver() returns (m: Option<Message>, rs: seq<Refund>)
      requires Valid()
      modifies this, table, table.store, table.store.buff, receipts, receipts.chain, released, released.seqs
      ensures Valid() && (fresh(table.store.buff) || table.store.buff == old(table.store.buff))
      ensures forall i | 0 <= i < |receipts.chain| :: receipts.chain[i] in old(receipts.chain)
      ensures Handoff(View(), m, rs) == Next(old(View())) && rs == []
    {
      ghost var w := View();
      m, rs := Seek();
      WL.NextKeeps(w);
      WL.NextExact(w);
    }

    /** The delivery loop, with its events. */
    method Seek() returns (m: Option<Message>, rs: seq<Refund>)
      requires Sound() && Events()
      modifies this, table, table.store, table.store.buff, receipts, receipts.chain, released, released.seqs
      ensures Sound() && Events() && (fresh(table.store.buff) || table.store.buff == old(table.store.buff))
      ensures forall i | 0 <= i < |receipts.chain| :: receipts.chain[i] in old(receipts.chain)
      ensures Handoff(View(), m, rs) == Next(old(View()))
    {
      m, rs := None, [];
      if isReadyToDeliver {
        m, rs := Turns();
        if m.None? {
          isReadyToDeliver := false;
          isEmpty := true;
        }
      }
    }

    // ----- Reset -----

    /** Retires the frame of entry `j` if it had its last transmission and is still live. */
    method RetireEntry(entry: Admission, ghost j: nat) returns (rs: seq<Refund>)
      requires SoundAt(0) && j < |receipts.chain| && entry == receipts.chain[j]
      modifies `lastFlaggedSeq, `wakes, receipts`cells, table, table.store, table.store.buff
      ensures SoundAt(0) && table.store.buff == old(table.store.buff)
      ensures var w, e := old(View()), old(receipts.entries)[j];
        && View() == RetireIfSpent(w, e)
        && rs == if ToRetire(w, e) then [RetireRefund(w, Pos(w, e.sn))] else []
    {
      rs := [];
      assert LinkAt(receipts.chain, receipts.entries, j);
      assert Place(receipts.entries, table.firstSeqNum, j) < |table.slots|;
      if entry.max != 0 && entry.sends >= entry.max {
        var index := Minus(entry.sn, table.firstSeqNum);
        if !table.IsRetired(index) {
          ghost var w := View();
          var r := RetireSlot(index, entry.sn, entry.cell, 0);
          BlankedRetires(w, index, entry.sn, entry.cell, r, View());
          rs := [r];
        }
      }
    }

    /** Retires every frame that had its last transmission, in one pass over the receipts. */
    method RetireAllSpent() returns (rs: seq<Refund>)
      requires SoundAt(0)
      modifies `lastFlaggedSeq, `wakes, receipts`cells, table, table.store, table.store.buff
      ensures SoundAt(0) && table.store.buff == old(table.store.buff)
      ensures var w := old(View()); View() == RetireSpent(w, |w.tracked|) && rs == SpentRefunds(w, |w.tracked|)
    {
      ghost var w, j := View(), 0;
      rs := [];
      var entry := receipts.head;
      while entry != null
        invariant SoundAt(0) && table.store.buff == old(table.store.buff)
        invariant j <= |receipts.chain| && entry == Nth(receipts.chain, j)
        invariant View() == RetireSpent(w, j) && rs == SpentRefunds(w, j)
        decreases |receipts.chain| - j
      {
        assert LinkAt(receipts.chain, receipts.entries, j);
        var next := entry.next;
        var more := RetireEntry(entry, j);
        rs := rs + more;
        entry := next;
        j := j + 1;
      }
    }

    /** Delivery goes back to the first slot. */
    method Rewind()
      requires Sound()
      modifies `nextIndexToDeliver, receipts`cursor, receipts`at
      ensures Sound() && View() == old(View()).(deliver := 0)
    {
      CursorRewound(receipts.entries, receipts.at, table.firstSeqNum, |table.slots|, nextIndexToDeliver);
      nextIndexToDeliver := 0;
      receipts.Rewind();
    }

    method RetireFromStart() returns (rs: seq<Refund>)
      requires Sound()
      modifies `nextIndexToDeliver, `lastFlaggedSeq, `wakes, receipts`cursor, receipts`at, receipts`cells
      modifies table, table.store, table.store.buff
      ensures Sound() && table.store.buff == old(table.store.buff)
      ensures var v := old(View()).(deliver := 0);
        View() == RetireSpent(v, |v.tracked|) && rs == SpentRefunds(v, |v.tracked|)
    {
      Rewind();
      rs := RetireAllSpent();
    }

    /** A reset without its events. */
    method RestartDelivery() returns (rs: seq<Refund>)
      requires Sound()
      modifies this, table, table.store, table.store.buff, receipts, receipts.chain, released, released.seqs
      ensures Sound() && (fresh(table.store.buff) || table.store.buff == old(table.store.buff))
      ensures forall i | 0 <= i < |receipts.chain| :: receipts.chain[i] in old(receipts.chain)
      ensures rs == ResetRefunds(old(View())) && View() == Reset(old(View()))
    {
      rs := RetireFromStart();
      var more := ReleaseRetiredHead();
      rs := rs + more;
    }

    method SetEvents()
      requires Sound()
      modifies `isReadyToDeliver, `isEmpty
      ensures Sound() && Events() && View() == old(View())
    {
      if nextIndexToDeliver >= table.store.count {
        isReadyToDeliver := false;
        isEmpty := true;
      } else {
        isReadyToDeliver := true;
        isEmpty := false;
      }
    }

    /** Delivery starts over, without the frames that had their last transmission. */
    method ResetDelivery() returns (rs: seq<Refund>)
      requires Valid()
      modifies this, table, table.store, table.store.buff, receipts, receipts.chain, released, released.seqs
      ensures Valid() && (fresh(table.store.buff) || table.store.buff == old(table.store.buff))
      ensures forall i | 0 <= i < |receipts.chain| :: receipts.chain[i] in old(receipts.chain)
      ensures rs == ResetRefunds(old(View())) && View() == Reset(old(View()))
    {
      WL.ResetKeeps(View());
      rs := RestartDelivery();
      SetEvents();
    }

    // ----- Flow control and shutdown -----

    /** Makes room for `capacity` slots, and gives back backing that is not needed for it. */
    method Refit(capacity: nat)
      requires table.Valid() && capacity <= MAX_SLOTS
      modifies table.store
      ensures table.Valid() && capacity <= table.store.buff.Length
      ensures fresh(table.store.buff) || table.store.buff == old(table.store.buff)
    {
      if table.store.buff.Length < capacity {
        table.store.Resize(capacity);
      }
      table.Shrink(capacity);
    }

    /** The window of a resized table. */
    method SetCapacity(capacity: nat)
      requires table.Valid() && capacity <= table.store.buff.Length && capacity != currentCapacity
      requires receipts.Valid() && released.Valid() && Events()
      requires CursorAt(receipts.entries, receipts.at, table.firstSeqNum, |table.slots|, nextIndexToDeliver)
      modifies `currentCapacity, `isAvailable, `wakes, `ackEvery
      ensures Sound() && Events() && View() == Resize(old(View()), capacity)
    {
      ackEvery := if capacity / 2 == 0 then 1 else capacity / 2;
      SetRoom(capacity);
    }

    method SetRoom(capacity: nat)
      requires table.Valid() && capacity <= table.store.buff.Length
      requires receipts.Valid() && released.Valid() && Events()
      requires CursorAt(receipts.entries, receipts.at, table.firstSeqNum, |table.slots|, nextIndexToDeliver)
      modifies `currentCapacity, `isAvailable, `wakes
      ensures Sound() && Events()
      ensures var w := old(View()); View() == w.(capacity := capacity, wakes := w.wakes + 1)
    {
      currentCapacity := capacity;
      isAvailable := table.store.count < capacity;
      wakes := wakes + 1;
    }

    method UpdateCapacity(capacity: nat)
      requires Valid() && capacity <= MAX_SLOTS
      modifies `currentCapacity, `isAvailable, `wakes, `ackEvery, table.store
      ensures Valid() && (fresh(table.store.buff) || table.store.buff == old(table.store.buff))
      ensures View() == Resize(old(View()), capacity)
    {
      WL.ResizeKeeps(View(), capacity);
      if capacity != currentCapacity {
        Refit(capacity);
        SetCapacity(capacity);
      }
    }

    /** Admission stops; producers and a drain are woken. */
    method SealAdmission()
      requires Valid()
      modifies `isRunning, `wakes
      ensures Valid() && View() == Seal(old(View()))
    {
      WL.SealKeeps(View());
      StopAdmission();
    }

    method StopAdmission()
      requires Sound() && Events()
      modifies `isRunning, `wakes
      ensures Sound() && Events() && View() == Seal(old(View()))
    {
      isRunning := false;
      wakes := wakes + 1;
    }

    /** Admission stops and the charge is given up; what is held stays. */
    method CloseSlots() returns (r: Refund)
      requires Valid()
      modifies `isRunning, `isClosed, `wakes, table`bytes, table`escapeBytes
      ensures Valid()
      ensures r == CloseRefund(old(View())) && View() == Close(old(View()))
    {
      WL.CloseKeeps(View());
      r := StopForGood();
    }

    method StopForGood() returns (r: Refund)
      requires Sound() && Events()
      modifies `isRunning, `isClosed, `wakes, table`bytes, table`escapeBytes
      ensures Sound() && Events()
      ensures r == CloseRefund(old(View())) && View() == Close(old(View()))
    {
      Halt();
      r := table.GiveUp();
    }

    method Halt()
      requires Sound() && Events()
      modifies `isRunning, `isClosed, `wakes
      ensures Sound() && Events()
      ensures var w := old(View()); View() == w.(running := false, closed := true, wakes := w.wakes + 1)
    {
      isRunning := false;
      isClosed := true;
      wakes := wakes + 1;
    }

    /** The receipt list is dropped; cells keep their last state. */
    method ForgetReceipts()
      requires Valid()
      modifies receipts
      ensures Valid() && View() == Forget(old(View()))
    {
      WL.SealKeeps(View());
      receipts.Forget();
    }

    // ----- Admission -----

    /** The next number, and whether the message asks for an acknowledgement. */
    method Number(r: Request, forced: bool, step: nat) returns (m: Message)
      requires ackEvery > 0
      modifies `nextSeqNum, `lastFlaggedSeq, `bytesSinceFlag
      ensures var w := old(View());
        m == Message(r.msg.body, w.next, Flagged(w, r, forced, step)) && View() == NumberedNext(w, r, m.ack)
    {
      var flagged := r.msg.ack || nextSeqNum % ackEvery == 0 || forced || (step != 0 && bytesSinceFlag + r.size >= step);
      m := Message(r.msg.body, nextSeqNum, flagged);
      nextSeqNum := Plus(nextSeqNum, 1);
      if flagged {
        lastFlaggedSeq := m.seqNum;
        bytesSinceFlag := 0;
      } else {
        bytesSinceFlag := bytesSinceFlag + r.size;
      }
    }

    /** A tracked admission is linked at the end, in the retained state. */
    method Track(sn: u64, track: Option<nat>, ghost deliver: nat)
      requires receipts.Valid() && |table.slots| < MAX_SLOTS && sn == Plus(table.firstSeqNum, |table.slots|)
      requires CursorAt(receipts.entries, receipts.at, table.firstSeqNum, |table.slots|, deliver)
      requires deliver <= |table.slots| && CellsBelow(receipts.entries, |receipts.cells|)
      modifies receipts, receipts.chain
      ensures receipts.Valid()
      ensures forall i | 0 <= i < |receipts.chain| :: receipts.chain[i] in old(receipts.chain) || fresh(receipts.chain[i])
      ensures CursorAt(receipts.entries, receipts.at, table.firstSeqNum, |table.slots| + 1, deliver)
      ensures receipts.entries == old(receipts.entries)
              + if track.Some? then [Entry(sn, |old(receipts.cells)|, track.value, 0)] else []
      ensures receipts.cells == if track.Some? then old(receipts.cells) + [Retained] else old(receipts.cells)
    {
      CursorGrows(receipts.entries, receipts.at, table.firstSeqNum, |table.slots|, deliver, sn, |receipts.cells|, track);
      if track.Some? {
        receipts.Append(sn, track.value);
      }
    }

    /** The message takes the next free slot. */
    method PutSlot(m: Message, size: nat, escaped: bool)
      requires Rep() && isAvailable && nextIndexToDeliver <= |table.slots|
      requires (table.accounting || (size == 0 && !escaped)) && m.seqNum == Plus(table.firstSeqNum, |table.slots|)
      modifies `isAvailable, `isReadyToDeliver, `isEmpty, table, table.store, table.store.buff
      ensures Rep() && Events() && table.store.buff == old(table.store.buff)
      ensures View() == StoredLast(old(View()), m, size, escaped)
    {
      table.Append(m, size, escaped);
      if table.store.count >= currentCapacity {
        isAvailable := false;
      }
      isReadyToDeliver := true;
      isEmpty := false;
    }

    /** The receipts are ahead of the slots until the message is stored. */
    method LinkLast(sn: u64, track: Option<nat>)
      requires Sound() && |table.slots| < MAX_SLOTS && sn == Plus(table.firstSeqNum, |table.slots|)
      requires nextIndexToDeliver <= |table.slots| && CellsBelow(receipts.entries, |receipts.cells|)
      modifies receipts, receipts.chain
      ensures Rep() && receipts.Valid() && released.Valid()
      ensures forall i | 0 <= i < |receipts.chain| :: receipts.chain[i] in old(receipts.chain) || fresh(receipts.chain[i])
      ensures CursorAt(receipts.entries, receipts.at, table.firstSeqNum, |table.slots| + 1, nextIndexToDeliver)
      ensures View() == LinkedLast(old(View()), sn, track)
    {
      Track(sn, track, nextIndexToDeliver);
    }

    /** A numbered message is tracked and stored. */
    method Enter(m: Message, r: Request, escaped: bool)
      requires Sound() && isAvailable && nextIndexToDeliver <= |table.slots|
      requires m.seqNum == Plus(table.firstSeqNum, |table.slots|) && CellsBelow(receipts.entries, |receipts.cells|)
      requires table.accounting || (r.size == 0 && !escaped)
      modifies `isAvailable, `isReadyToDeliver, `isEmpty, table, table.store, table.store.buff, receipts, receipts.chain
      ensures Sound() && Events() && table.store.buff == old(table.store.buff)
      ensures forall i | 0 <= i < |receipts.chain| :: receipts.chain[i] in old(receipts.chain) || fresh(receipts.chain[i])
      ensures View() == StoredLast(LinkedLast(old(View()), m.seqNum, r.track), m, r.size, escaped)
    {
      LinkLast(m.seqNum, r.track);
      PutSlot(m, r.size, escaped);
    }

    /** Number, request flag, receipt and slot of an admitted message. */
    method AdmitMessage(r: Request, forced: bool, step: nat, escaped: bool)
      requires Valid() && isRunning && isAvailable && (escaped ==> r.size > 0)
      requires table.accounting || (r.size == 0 && !escaped)
      modifies this, table, table.store, table.store.buff, receipts, receipts.chain
      ensures Valid() && table.store.buff == old(table.store.buff)
      ensures forall i | 0 <= i < |receipts.chain| :: receipts.chain[i] in old(receipts.chain) || fresh(receipts.chain[i])
      ensures View() == Admit(old(View()), r, forced, step, escaped)
    {
      ForAdmission(View());
      WL.AdmitKeeps(View(), r, forced, step, escaped);
      EnterNext(r, forced, step, escaped);
    }

    method EnterNext(r: Request, forced: bool, step: nat, escaped: bool)
      requires Sound() && isAvailable && ackEvery > 0 && nextIndexToDeliver <= |table.slots|
      requires nextSeqNum == Plus(table.firstSeqNum, |table.slots|) && CellsBelow(receipts.entries, |receipts.cells|)
      requires table.accounting || (r.size == 0 && !escaped)
      modifies this, table, table.store, table.store.buff, receipts, receipts.chain
      ensures Sound() && Events() && table.store.buff == old(table.store.buff)
      ensures forall i | 0 <= i < |receipts.chain| :: receipts.chain[i] in old(receipts.chain) || fresh(receipts.chain[i])
      ensures View() == Admit(old(View()), r, forced, step, escaped)
    {
      ghost var w := View();
      var m := Number(r, forced, step);
      Enter(m, r, escaped);
      AdmitParts(w, r, forced, step, escaped, m);
    }

    // ----- What is left -----

    method GetUnAcked() returns (out: seq<Message>)
      requires Valid()
      ensures out == Live(View().slots)
    {
      out := table.UnAcked();
    }

    /** How many live messages are left, with the numbers of the first and the last of them. */
    method Remaining() returns (n: nat, first: u64, last: u64)
      requires Rep() && table.slots != [] && !table.slots[0].retired
      ensures var live := Live(table.slots);
        n == |live| > 0 && first == live[0].seqNum && last == live[|live| - 1].seqNum
    {
      var i, j := table.LiveBounds();
      n := table.LiveSlots();
      LiveEnds(table.slots, i, j);
      assert SlotAt(table.slots, table.store.items, table.sizes, table.firstSeqNum, table.retired, i);
      assert SlotAt(table.slots, table.store.items, table.sizes, table.firstSeqNum, table.retired, j);
      first, last := table.store.At(i).seqNum, table.store.At(j).seqNum;
    }

    /** One look of a drain at the sealed buffer: it is done, or gives up, or waits for the next wake. */
    method DrainCheck(expired: bool) returns (result: Drain)
      requires Valid()
      ensures var slots := View().slots; var live := Live(slots);
        if slots == [] then result == Drained
        else if isClosed || expired then
          |live| > 0 && result == Unfinished(|live|, live[0].seqNum, live[|live| - 1].seqNum, isClosed)
        else result == Waiting(wakes)
    {
      if table.store.count == 0 {
        return Drained;
      }
      if isClosed || expired {
        var n, first, last := Remaining();
        return Unfinished(n, first, last, isClosed);
      }
      return Waiting(wakes);
    }
  }
}
