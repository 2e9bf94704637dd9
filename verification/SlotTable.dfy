/** The held slots of a send window: messages, their sizes, which of them are retired, and what they
    are charged. */
module SlotTables {
  import opened Words
  import opened Tables
  import opened WindowSpec
  import opened MessageArrays

  // ----- Slots as values -----

  function SizeAt(sizes: seq<nat>, i: nat): nat {
    if i < |sizes| then sizes[i] else 0
  }

  /** Slot `i` is message `i` with its size, number and retired mark. */
  ghost predicate SlotAt(slots: seq<Slot>, b: seq<Message>, sizes: seq<nat>, first: u64, retired: set<u64>, i: nat)
    requires i < |slots| == |b| <= MAX_SLOTS
  {
    slots[i] == Slot(b[i], SizeAt(sizes, i), Plus(first, i) in retired) && b[i].seqNum == Plus(first, i)
  }

  /** The slots are what messages, sizes and retired numbers say, and no other number is retired. */
  ghost predicate Holds(slots: seq<Slot>, b: seq<Message>, sizes: seq<nat>, first: u64, retired: set<u64>, sized: bool) {
    && |slots| == |b| <= MAX_SLOTS && (if sized then |sizes| == |b| else sizes == [])
    && (forall i | 0 <= i < |slots| :: SlotAt(slots, b, sizes, first, retired, i))
    && (forall sn | sn in retired :: Minus(sn, first) < |b|)
  }

  /** Retired numbers that are not among the first `k` slots. */
  function Survivors(retired: set<u64>, first: u64, k: nat): set<u64> {
    set sn | sn in retired && Minus(sn, first) >= k
  }

  lemma SamePlace(first: u64, k: nat, i: nat)
    requires k + i <= MAX_SLOTS
    ensures Plus(Plus(first, k), i) == Plus(first, k + i) && Minus(Plus(first, k + i), first) == k + i
  {
  }

  lemma HoldsSuffix(slots: seq<Slot>, b: seq<Message>, sizes: seq<nat>, first: u64, retired: set<u64>, sized: bool,
                    k: nat)
    requires Holds(slots, b, sizes, first, retired, sized) && k <= |b|
    ensures Holds(slots[k..], b[k..], if sized then sizes[k..] else sizes, Plus(first, k), Survivors(retired, first, k),
                  sized)
  {
    var z, left := if sized then sizes[k..] else sizes, Survivors(retired, first, k);
    forall i | 0 <= i < |b| - k ensures SlotAt(slots[k..], b[k..], z, Plus(first, k), left, i) {
      assert SlotAt(slots, b, sizes, first, retired, k + i);
      SamePlace(first, k, i);
    }
    forall sn | sn in left ensures Minus(sn, Plus(first, k)) < |b| - k { PlaceMoves(first, sn, k); }
  }

  lemma PlaceMoves(first: u64, sn: u64, k: nat)
    requires k <= Minus(sn, first) && k <= MAX_SLOTS
    ensures Minus(sn, Plus(first, k)) == Minus(sn, first) - k
  {
  }

  lemma HoldsRetire(slots: seq<Slot>, b: seq<Message>, sizes: seq<nat>, first: u64, retired: set<u64>, sized: bool,
                    i: nat, sn: u64)
    requires Holds(slots, b, sizes, first, retired, sized) && i < |b| && Minus(sn, first) == i
    ensures slots[i].msg.seqNum == sn && slots[i].size == SizeAt(sizes, i)
    ensures Holds(slots[i := Slot(Message(None, sn, false), 0, true)], b[i := Message(None, sn, false)],
                  if sized then sizes[i := 0] else sizes, first, retired + {sn}, sized)
  {
    assert SlotAt(slots, b, sizes, first, retired, i);
    var m := Message(None, sn, false);
    var x, c, more := slots[i := Slot(m, 0, true)], b[i := m], retired + {sn};
    var z := if sized then sizes[i := 0] else sizes;
    forall j | 0 <= j < |b| ensures SlotAt(x, c, z, first, more, j) {
      assert SlotAt(slots, b, sizes, first, retired, j);
      SamePlace(first, 0, j);
    }
  }

  lemma HoldsAppend(slots: seq<Slot>, b: seq<Message>, sizes: seq<nat>, first: u64, retired: set<u64>, sized: bool,
                    m: Message, size: nat)
    requires Holds(slots, b, sizes, first, retired, sized) && |b| < MAX_SLOTS && (sized || size == 0)
    requires m.seqNum == Plus(first, |b|)
    ensures Holds(slots + [Slot(m, size, false)], b + [m], if sized then sizes + [size] else sizes, first, retired, sized)
  {
    SamePlace(first, 0, |b|);
    var z := if sized then sizes + [size] else sizes;
    forall i | 0 <= i <= |b| ensures SlotAt(slots + [Slot(m, size, false)], b + [m], z, first, retired, i) {
      if i < |b| { assert SlotAt(slots, b, sizes, first, retired, i); }
    }
  }

  /** The charge of the first `k` slots, as far as it is still held. */
  ghost function PrefixRefund(slots: seq<Slot>, k: nat, bytes: nat, escapeSeq: u64, escapeBytes: nat, first: u64): Refund
    requires k <= |slots|
  {
    Refund(Min(Sum(slots[..k], SizeOf()), bytes),
           if escapeBytes != 0 && Minus(escapeSeq, first) < k then escapeBytes else 0)
  }

  lemma {:induction false} HeadRun(slots: seq<Slot>, n: nat)
    requires n <= |slots| && (forall i | 0 <= i < n :: slots[i].retired) && (n < |slots| ==> !slots[n].retired)
    ensures RetiredRun(slots) == n
  {
    if n > 0 { HeadRun(slots[1..], n - 1); }
  }

  function Below(retired: set<u64>, first: u64, n: nat): set<u64> {
    set sn | sn in retired && Minus(sn, first) < n
  }

  /** Retired numbers and live messages make up the slots. */
  lemma {:induction false} RetiredCount(slots: seq<Slot>, b: seq<Message>, sizes: seq<nat>, first: u64, retired: set<u64>,
                                        sized: bool, n: nat)
    requires Holds(slots, b, sizes, first, retired, sized) && n <= |b|
    ensures |Below(retired, first, n)| + |Live(slots[..n])| == n
  {
    if n > 0 {
      RetiredCount(slots, b, sizes, first, retired, sized, n - 1);
      assert slots[..n][..n - 1] == slots[..n - 1];
      assert SlotAt(slots, b, sizes, first, retired, n - 1);
      BelowNext(retired, first, n - 1);
    }
  }

  lemma BelowNext(retired: set<u64>, first: u64, n: nat)
    requires n < MAX_SLOTS
    ensures var sn := Plus(first, n);
      sn !in Below(retired, first, n)
      && Below(retired, first, n + 1) == Below(retired, first, n) + if sn in retired then {sn} else {}
  {
    SamePlace(first, 0, n);
    forall x | x in retired && Minus(x, first) == n ensures x == Plus(first, n) { }
  }

  class SlotTable {
    const accounting: bool
    const store: MessageArray
    var firstSeqNum: u64
    var sizes: seq<nat>
    var retired: set<u64>
    var bytes: nat
    var escapeSeq: u64
    var escapeBytes: nat
    ghost var slots: seq<Slot>

    ghost predicate Valid()
      reads this, store, store.buff
    {
      && store.Valid() && Holds(slots, store.items, sizes, firstSeqNum, retired, accounting)
      && (accounting || (bytes == 0 && escapeBytes == 0))
    }

    constructor (accounting: bool)
      ensures Valid() && this.accounting == accounting && fresh(store) && fresh(store.buff)
      ensures slots == [] && firstSeqNum == 1 && bytes == 0 && escapeSeq == 0 && escapeBytes == 0
      ensures store.buff.Length == 1
    {
      this.accounting := accounting;
      store := new MessageArray();
      firstSeqNum, sizes, retired, bytes, escapeSeq, escapeBytes := 1, [], {}, 0, 0, 0;
      slots := [];
    }

    // ----- Removal from the front -----

    method FreedBytes(k: nat) returns (freed: nat)
      requires Valid() && k <= store.count && accounting
      ensures freed == Sum(slots[..k], SizeOf())
    {
      freed := 0;
      var i := 0;
      while i < k
        invariant i <= k && freed == Sum(slots[..i], SizeOf())
      {
        assert slots[..i + 1] == slots[..i] + [slots[i]];
        SumAppend(slots[..i], slots[i], SizeOf());
        assert SlotAt(slots, store.items, sizes, firstSeqNum, retired, i);
        freed := freed + sizes[i];
        i := i + 1;
      }
    }

    /** The bytes of the first `k` slots, as far as Close has not returned them, are no longer held. */
    method RefundPrefix(k: nat) returns (r: Refund)
      requires Valid() && k <= store.count
      modifies `sizes, `bytes, `escapeBytes
      ensures r == PrefixRefund(old(slots), k, old(bytes), escapeSeq, old(escapeBytes), firstSeqNum)
      ensures bytes == old(bytes) - r.bytes && escapeBytes == if r.escape != 0 then 0 else old(escapeBytes)
      ensures sizes == if accounting then old(sizes)[k..] else old(sizes)
    {
      r := Refund(0, 0);
      if accounting {
        var freed := FreedBytes(k);
        sizes := sizes[k..];
        if freed > bytes {
          freed := bytes;
        }
        bytes := bytes - freed;
        var escape := 0;
        if escapeBytes != 0 && Minus(escapeSeq, firstSeqNum) < k {
          escape := escapeBytes;
          escapeBytes := 0;
        }
        r := Refund(freed, escape);
      } else {
        forall i | 0 <= i < k ensures slots[i].size == 0 {
          assert SlotAt(slots, store.items, sizes, firstSeqNum, retired, i);
        }
        SumZero(slots[..k], SizeOf());
      }
    }

    /** Reclaims the backing of a former, larger window. */
    method Shrink(capacity: nat)
      requires Valid() && capacity <= store.buff.Length
      modifies store
      ensures Valid() && (fresh(store.buff) || store.buff == old(store.buff))
      ensures store.buff.Length == Max(Max(capacity, store.count), 1) && store.items == old(store.items)
    {
      var target := Max(Max(capacity, store.count), 1);
      if store.buff.Length > target {
        store.Resize(target);
      }
    }

    /** Removes the first `k` slots. */
    method RemovePrefix(k: nat) returns (r: Refund)
      requires Valid() && k <= store.count
      modifies this, store, store.buff
      ensures Valid() && store.buff == old(store.buff) && slots == old(slots)[k..]
      ensures firstSeqNum == Plus(old(firstSeqNum), k) && escapeSeq == old(escapeSeq)
      ensures r == PrefixRefund(old(slots), k, old(bytes), escapeSeq, old(escapeBytes), old(firstSeqNum))
      ensures bytes == old(bytes) - r.bytes && escapeBytes == if r.escape != 0 then 0 else old(escapeBytes)
    {
      HoldsSuffix(slots, store.items, sizes, firstSeqNum, retired, accounting, k);
      r := RefundPrefix(k);
      retired := Survivors(retired, firstSeqNum, k);
      firstSeqNum := Plus(firstSeqNum, k);
      store.DropFront(k);
      slots := slots[k..];
    }

    // ----- Admission and retirement -----

    method Append(m: Message, size: nat, escaped: bool)
      requires Valid() && store.count < store.buff.Length && (accounting || (size == 0 && !escaped))
      requires m.seqNum == Plus(firstSeqNum, |slots|)
      modifies this, store, store.buff
      ensures Valid() && store.buff == old(store.buff) && slots == old(slots) + [Slot(m, size, false)]
      ensures firstSeqNum == old(firstSeqNum) && bytes == old(bytes) + size
      ensures escapeSeq == (if escaped then m.seqNum else old(escapeSeq))
      ensures escapeBytes == (if escaped then size else old(escapeBytes))
    {
      HoldsAppend(slots, store.items, sizes, firstSeqNum, retired, accounting, m, size);
      if escaped {
        escapeSeq, escapeBytes := m.seqNum, size;
      }
      store.Append(m);
      if accounting {
        sizes := sizes + [size];
        bytes := bytes + size;
      }
      slots := slots + [Slot(m, size, false)];
    }

    /** Slot `i` becomes a placeholder that keeps its number. */
    method Retire(i: nat, sn: u64) returns (r: Refund)
      requires Valid() && i < store.count && Minus(sn, firstSeqNum) == i
      modifies this, store, store.buff
      ensures Valid() && store.buff == old(store.buff) && firstSeqNum == old(firstSeqNum) && escapeSeq == old(escapeSeq)
      ensures old(slots)[i].msg.seqNum == sn && slots == old(slots)[i := Slot(Message(None, sn, false), 0, true)]
      ensures r == Refund(Min(old(slots)[i].size, old(bytes)),
                          if old(escapeBytes) != 0 && escapeSeq == sn then old(escapeBytes) else 0)
      ensures bytes == old(bytes) - r.bytes && escapeBytes == if r.escape != 0 then 0 else old(escapeBytes)
    {
      HoldsRetire(slots, store.items, sizes, firstSeqNum, retired, accounting, i, sn);
      store.Put(i, Message(None, sn, false));
      retired := retired + {sn};
      r := Refund(0, 0);
      if accounting {
        var size, escape := Min(sizes[i], bytes), 0;
        sizes := sizes[i := 0];
        bytes := bytes - size;
        if escapeBytes != 0 && escapeSeq == sn {
          escape := escapeBytes;
          escapeBytes := 0;
        }
        r := Refund(size, escape);
      }
      slots := slots[i := Slot(Message(None, sn, false), 0, true)];
    }

    /** The whole charge is given up, unless there is none. */
    method GiveUp() returns (r: Refund)
      requires Valid()
      modifies `bytes, `escapeBytes
      ensures Valid() && r == Refund(old(bytes), if old(bytes) != 0 then old(escapeBytes) else 0)
      ensures bytes == 0 && escapeBytes == if old(bytes) != 0 then 0 else old(escapeBytes)
    {
      r := Refund(0, 0);
      if bytes != 0 {
        r := Refund(bytes, escapeBytes);
        escapeBytes := 0;
        bytes := 0;
      }
    }

    predicate IsRetired(i: nat)
      requires Valid() && i < store.count
      reads this, store, store.buff
      ensures IsRetired(i) == slots[i].retired
    {
      assert SlotAt(slots, store.items, sizes, firstSeqNum, retired, i);
      Plus(firstSeqNum, i) in retired
    }

    // ----- Reading -----

    /** The length of the retired run at the front. */
    method RetiredHead() returns (n: nat)
      requires Valid()
      ensures n == RetiredRun(slots)
    {
      n := 0;
      if retired == {} {
        assert |slots| > 0 ==> SlotAt(slots, store.items, sizes, firstSeqNum, retired, 0);
        HeadRun(slots, 0);
        return;
      }
      while n < store.count && IsRetired(n)
        invariant n <= store.count && forall i | 0 <= i < n :: slots[i].retired
      {
        n := n + 1;
      }
      HeadRun(slots, n);
    }

    method OnlyRetiredAfterIndex(index: nat) returns (only: bool)
      requires Valid() && index < store.count
      ensures only == OnlyRetiredAfter(slots, index)
    {
      if retired == {} {
        assert index + 1 < store.count ==> SlotAt(slots, store.items, sizes, firstSeqNum, retired, index + 1);
        return index + 1 == store.count;
      }
      var i := index + 1;
      while i < store.count
        invariant index < i <= store.count && forall k | index < k < i :: slots[k].retired
      {
        if !IsRetired(i) {
          return false;
        }
        i := i + 1;
      }
      return true;
    }

    /** The messages awaiting acknowledgement, without the placeholders. */
    method UnAcked() returns (out: seq<Message>)
      requires Valid()
      ensures out == Live(slots)
    {
      out := [];
      var i := 0;
      while i < store.count
        invariant i <= store.count && out == Live(slots[..i])
      {
        assert slots[..i + 1][..i] == slots[..i];
        assert SlotAt(slots, store.items, sizes, firstSeqNum, retired, i);
        if !IsRetired(i) {
          out := out + [store.At(i)];
        }
        i := i + 1;
      }
      assert slots[..i] == slots;
    }

    /** The first and last live slots, if any is live. */
    method LiveBounds() returns (first: nat, last: nat)
      requires Valid() && store.count > 0
      ensures first <= last < store.count
      ensures (forall i | 0 <= i < first :: slots[i].retired) && (forall i | last < i < store.count :: slots[i].retired)
      ensures (exists i | 0 <= i < store.count :: !slots[i].retired) ==> !slots[first].retired && !slots[last].retired
    {
      first, last := 0, store.count - 1;
      if retired == {} {
        assert SlotAt(slots, store.items, sizes, firstSeqNum, retired, first);
        assert SlotAt(slots, store.items, sizes, firstSeqNum, retired, last);
      } else {
        while first < last && IsRetired(first)
          invariant first <= last && forall i | 0 <= i < first :: slots[i].retired
        {
          first := first + 1;
        }
        while last > first && IsRetired(last)
          invariant first <= last < store.count && forall i | last < i < store.count :: slots[i].retired
        {
          last := last - 1;
        }
      }
    }

    /** How many held messages are live. */
    method LiveSlots() returns (n: nat)
      requires Valid()
      ensures n == |Live(slots)|
    {
      RetiredCount(slots, store.items, sizes, firstSeqNum, retired, accounting, store.count);
      assert Below(retired, firstSeqNum, store.count) == retired;
      assert slots[..store.count] == slots;
      n := store.count - |retired|;
    }
  }
}
