/** The linked list of tracked admissions, with the cursor that follows delivery. */
module ReceiptLists {
  import opened Words
  import opened Tables
  import opened WindowSpec

  class Admission {
    const sn: u64
    const cell: nat
    const max: nat
    var sends: nat
    var next: Admission?

    constructor (sn: u64, cell: nat, max: nat)
      ensures this.sn == sn && this.cell == cell && this.max == max && sends == 0 && next == null
    {
      this.sn, this.cell, this.max, sends, next := sn, cell, max, 0, null;
    }
  }

  /** Entries covered so far, and those still ahead. */
  lemma CoveredFrom(es: seq<Entry>, first: u64, k: nat, i: nat)
    requires i <= Covered(es, first, k)
    ensures Covered(es, first, k) == i + Covered(es[i..], first, k)
  {
    if i > 0 {
      CoveredFrom(es[1..], first, k, i - 1);
      assert es[1..][i - 1..] == es[i..];
    }
  }

  lemma ConfirmMore(cells: seq<Frame>, es: seq<Entry>, e: Entry)
    ensures Confirm(cells, es + [e]) ==
      var c := Confirm(cells, es);
      if e.cell < |c| && c[e.cell] == Retained then c[e.cell := Acknowledged] else c
  {
    assert (es + [e])[..|es|] == es;
  }

  /** The cells after the first `n` entries left. */
  function Marked(cells: seq<Frame>, es: seq<Entry>, n: nat, acknowledge: bool): seq<Frame>
    requires n <= |es|
  {
    if acknowledge then Confirm(cells, es[..n]) else cells
  }

  lemma MarkedMore(cells: seq<Frame>, es: seq<Entry>, n: nat, acknowledge: bool)
    requires n < |es|
    ensures var c, e := Marked(cells, es, n, acknowledge), es[n].cell;
      Marked(cells, es, n + 1, acknowledge) ==
      if acknowledge && e < |c| && c[e] == Retained then c[e := Acknowledged] else c
  {
    assert es[..n + 1] == es[..n] + [es[n]];
    ConfirmMore(cells, es[..n], es[n]);
  }

  ghost function Nth(chain: seq<Admission>, i: nat): Admission? {
    if i < |chain| then chain[i] else null
  }

  /** Node `i` carries entry `i` and leads to the next node. */
  ghost predicate LinkAt(chain: seq<Admission>, entries: seq<Entry>, i: nat)
    requires i < |chain| == |entries|
    reads chain[i]
  {
    && chain[i].next == Nth(chain, i + 1)
    && entries[i] == Entry(chain[i].sn, chain[i].cell, chain[i].max, chain[i].sends)
  }

  /** `chain` is what following `next` from `head` visits. */
  ghost predicate Linked(head: Admission?, chain: seq<Admission>, entries: seq<Entry>)
    reads chain
  {
    && head == Nth(chain, 0) && |entries| == |chain|
    && (forall i | 0 <= i < |chain| :: LinkAt(chain, entries, i))
    && (forall i, j | 0 <= i < j < |chain| :: chain[i] != chain[j])
  }

  class ReceiptList {
    var head: Admission?
    var tail: Admission?
    var cursor: Admission?
    var cells: seq<Frame>
    ghost var chain: seq<Admission>
    ghost var at: nat
    ghost var entries: seq<Entry>

    ghost predicate Valid()
      reads this, chain
    {
      && Linked(head, chain, entries)
      && tail == (if |chain| == 0 then null else chain[|chain| - 1])
      && at <= |chain| && cursor == Nth(chain, at)
    }

    constructor ()
      ensures Valid() && chain == [] && entries == [] && cells == [] && at == 0
    {
      head, tail, cursor, cells := null, null, null, [];
      chain, at, entries := [], 0, [];
    }

    /** A new admission at the end, in the retained state. */
    method Append(sn: u64, max: nat)
      requires Valid()
      modifies this, chain
      ensures Valid() && (forall i | 0 <= i < |chain| :: chain[i] in old(chain) || fresh(chain[i]))
      ensures entries == old(entries) + [Entry(sn, |old(cells)|, max, 0)]
      ensures cells == old(cells) + [Retained] && at == old(at)
    {
      var entry := new Admission(sn, |cells|, max);
      if tail == null {
        head := entry;
      } else {
        tail.next := entry;
      }
      tail := entry;
      if cursor == null {
        cursor := entry;
      }
      cells := cells + [Retained];
      entries := entries + [Entry(sn, entry.cell, max, 0)];
      chain := chain + [entry];
      forall i | 0 <= i < |chain| ensures LinkAt(chain, entries, i) {
        if i < |chain| - 1 { assert old(LinkAt(chain, entries, i)); }
      }
    }

    /** Unlinks the first entry. */
    method Pop(acknowledge: bool)
      requires Linked(head, chain, entries) && head != null
      modifies this, chain
      ensures Linked(head, chain, entries) && chain == old(chain)[1..]
      ensures entries == old(entries)[1..]
      ensures cursor == old(cursor) && at == old(at) && tail == old(tail)
      ensures var c := old(entries[0].cell);
        cells == if acknowledge && c < |old(cells)| && old(cells)[c] == Retained then old(cells)[c := Acknowledged]
                 else old(cells)
    {
      var entry: Admission := head;
      assert LinkAt(chain, entries, 0);
      head := entry.next;
      entry.next := null;
      if acknowledge && entry.cell < |cells| && cells[entry.cell] == Retained {
        cells := cells[entry.cell := Acknowledged];
      }
      chain, entries := chain[1..], entries[1..];
      forall i | 0 <= i < |chain| ensures LinkAt(chain, entries, i) { assert old(LinkAt(chain, entries, i + 1)); }
    }

    /** Unlinks the entries of the first `k` slots. */
    method Unlink(first: u64, k: nat, acknowledge: bool) returns (cursorRemoved: bool)
      requires Valid()
      modifies this, chain
      ensures var n := Covered(old(entries), first, k);
        && Linked(head, chain, entries) && chain == old(chain)[n..]
        && entries == old(entries)[n..]
        && cells == Marked(old(cells), old(entries), n, acknowledge)
        && cursorRemoved == (at < n)
      ensures cursor == old(cursor) && at == old(at) && tail == old(tail)
    {
      ghost var es, was, n := entries, chain, 0;
      cursorRemoved := false;
      while head != null && Minus(head.sn, first) < k
        invariant n <= Covered(es, first, k) && chain == was[n..] && Linked(head, chain, entries)
        invariant entries == es[n..]
        invariant cursor == old(cursor) && at == old(at) && tail == old(tail)
        invariant cursorRemoved == (at < n)
        invariant cells == Marked(old(cells), es, n, acknowledge)
        decreases |chain|
      {
        assert LinkAt(chain, entries, 0);
        CoveredFrom(es, first, k, n);
        MarkedMore(old(cells), es, n, acknowledge);
        assert head == was[n] && (head == cursor <==> n == at);
        cursorRemoved := cursorRemoved || head == cursor;
        Pop(acknowledge);
        n := n + 1;
      }
      assert head != null ==> LinkAt(chain, entries, 0);
      CoveredFrom(es, first, k, n);
    }

    /** The entries of the first `k` slots leave, acknowledged or not, and the cursor with them. */
    method Drop(first: u64, k: nat, acknowledge: bool)
      requires Valid()
      modifies this, chain
      ensures Valid() && (forall i | 0 <= i < |chain| :: chain[i] in old(chain))
      ensures var n := Covered(old(entries), first, k);
        && entries == old(entries)[n..]
        && cells == Marked(old(cells), old(entries), n, acknowledge)
        && at == (if old(at) < n then 0 else old(at) - n)
    {
      ghost var n := Covered(entries, first, k);
      var cursorRemoved := Unlink(first, k, acknowledge);
      if head == null {
        tail := null;
      }
      if cursorRemoved {
        cursor := head;
      }
      at := if at < n then 0 else at - n;
    }

    /** The entry under the cursor, if it is that of slot `index`, which the cursor then passes. */
    method Step(first: u64, index: nat) returns (entry: Admission?)
      requires Valid()
      modifies `cursor, `at
      ensures Valid()
      ensures var here := old(cursor) != null && Minus(old(cursor).sn, first) == index;
        && entry == (if here then old(cursor) else null)
        && at == old(at) + if here then 1 else 0
    {
      entry := null;
      if cursor != null && Minus(cursor.sn, first) == index {
        assert LinkAt(chain, entries, at);
        entry := cursor;
        cursor := cursor.next;
        at := at + 1;
      }
    }

    method CountSend(entry: Admission, ghost j: nat)
      requires Valid() && j < |chain| && entry == chain[j]
      modifies entry`sends, `entries
      ensures Valid() && cells == old(cells)
      ensures entries == old(entries)[j := old(entries)[j].(sends := old(entry.sends) + 1)]
    {
      entry.sends := entry.sends + 1;
      entries := entries[j := entries[j].(sends := entry.sends)];
      forall i | 0 <= i < |chain| ensures LinkAt(chain, entries, i) { assert old(LinkAt(chain, entries, i)); }
    }

    /** The state cell of an entry is stored. */
    method Store(cell: nat, frame: Frame)
      requires Valid()
      modifies `cells
      ensures Valid() && cells == if cell < |old(cells)| then old(cells)[cell := frame] else old(cells)
    {
      if cell < |cells| {
        cells := cells[cell := frame];
      }
    }

    method Rewind()
      requires Valid()
      modifies `cursor, `at
      ensures Valid() && at == 0
    {
      cursor := head;
      at := 0;
    }

    method Forget()
      modifies this
      ensures Valid() && chain == [] && entries == [] && at == 0 && cells == old(cells)
    {
      head, tail, cursor := null, null, null;
      chain, at, entries := [], 0, [];
    }
  }
}
