/** The binary heap of blocked groups, ordered by need, in which every group knows its index. */
module GroupHeaps {

  function Parent(i: nat): nat
    requires i > 0
  {
    (i - 1) / 2
  }

  /** The need of every group in the first `n` slots is known, slot `but` aside. */
  ghost predicate Known(items: seq<nat>, needs: map<nat, nat>, n: nat, but: nat)
    requires n <= |items|
  {
    forall i | 0 <= i < n && i != but :: items[i] in needs
  }

  ghost predicate AllKnown(items: seq<nat>, needs: map<nat, nat>, n: nat)
    requires n <= |items|
  {
    forall i | 0 <= i < n :: items[i] in needs
  }

  /** Among the first `n` slots, no group needs less than its parent. */
  ghost predicate OrderedTo(items: seq<nat>, needs: map<nat, nat>, n: nat)
    requires n <= |items|
  {
    && AllKnown(items, needs, n)
    && (forall i {:trigger Parent(i)} | 1 <= i < n :: needs[items[Parent(i)]] <= needs[items[i]])
  }

  ghost predicate Ordered(items: seq<nat>, needs: map<nat, nat>) {
    OrderedTo(items, needs, |items|)
  }

  /** The first `n` slots are ordered wherever slot `hole` is not involved, also across it. */
  ghost predicate Around(items: seq<nat>, needs: map<nat, nat>, n: nat, hole: nat)
    requires hole < n <= |items|
  {
    && Known(items, needs, n, hole)
    && (forall i {:trigger Parent(i)} | 1 <= i < n && i != hole && Parent(i) != hole ::
          needs[items[Parent(i)]] <= needs[items[i]])
    && (forall i {:trigger Parent(i)} | 1 <= i < n && Parent(i) == hole && hole >= 1 ::
          needs[items[Parent(hole)]] <= needs[items[i]])
  }

  ghost predicate ParentLess(items: seq<nat>, needs: map<nat, nat>, n: nat, hole: nat)
    requires hole < n <= |items| && AllKnown(items, needs, n)
  {
    hole >= 1 ==> needs[items[Parent(hole)]] <= needs[items[hole]]
  }

  ghost predicate ChildrenMore(items: seq<nat>, needs: map<nat, nat>, n: nat, hole: nat)
    requires hole < n <= |items| && AllKnown(items, needs, n)
  {
    forall i {:trigger Parent(i)} | 1 <= i < n && Parent(i) == hole :: needs[items[hole]] <= needs[items[i]]
  }

  /** Slot `j` is the child of slot `h` to exchange it with, or 0 when there is none. */
  ghost predicate LesserChild(items: seq<nat>, needs: map<nat, nat>, n: nat, h: nat, j: nat)
    requires h < n <= |items| && AllKnown(items, needs, n)
  {
    if j == 0 then ChildrenMore(items, needs, n, h)
    else
      && h < j < n && Parent(j) == h && needs[items[j]] < needs[items[h]]
      && forall i {:trigger Parent(i)} | 1 <= i < n && Parent(i) == h :: needs[items[j]] <= needs[items[i]]
  }

  /** The root needs least. */
  lemma {:induction false} RootLeast(items: seq<nat>, needs: map<nat, nat>, i: nat)
    requires Ordered(items, needs) && i < |items|
    ensures needs[items[0]] <= needs[items[i]]
  {
    if i > 0 {
      RootLeast(items, needs, Parent(i));
    }
  }

  function Exchange(s: seq<nat>, i: nat, j: nat): seq<nat>
    requires i < |s| && j < |s|
  {
    s[i := s[j]][j := s[i]]
  }

  /** Exchanging a slot with a parent that needs more moves the hole up. */
  lemma HoleUp(s: seq<nat>, needs: map<nat, nat>, n: nat, j: nat)
    requires 0 < j < n <= |s| && AllKnown(s, needs, n) && Around(s, needs, n, j) && ChildrenMore(s, needs, n, j)
    requires needs[s[j]] < needs[s[Parent(j)]]
    ensures var t := Exchange(s, Parent(j), j);
      AllKnown(t, needs, n) && Around(t, needs, n, Parent(j)) && ChildrenMore(t, needs, n, Parent(j))
  {
    var t := Exchange(s, Parent(j), j);
    var h := Parent(j);
    forall i {:trigger Parent(i)} | 1 <= i < n && i != h && Parent(i) != h
      ensures needs[t[Parent(i)]] <= needs[t[i]]
    {
    }
    forall i {:trigger Parent(i)} | 1 <= i < n && Parent(i) == h
      ensures needs[t[h]] <= needs[t[i]]
      ensures h >= 1 ==> needs[t[Parent(h)]] <= needs[t[i]]
    {
      if h >= 1 { assert needs[s[Parent(h)]] <= needs[s[h]]; }
    }
  }

  /** Exchanging a slot with its lesser child moves the hole down. */
  lemma HoleDown(s: seq<nat>, needs: map<nat, nat>, n: nat, h: nat, j: nat)
    requires h < n <= |s| && AllKnown(s, needs, n) && Around(s, needs, n, h) && LesserChild(s, needs, n, h, j) && j != 0
    ensures var t := Exchange(s, h, j);
      AllKnown(t, needs, n) && Around(t, needs, n, j) && ParentLess(t, needs, n, j)
  {
    var t := Exchange(s, h, j);
    forall i {:trigger Parent(i)} | 1 <= i < n && i != j && Parent(i) != j
      ensures needs[t[Parent(i)]] <= needs[t[i]]
    {
    }
    forall i {:trigger Parent(i)} | 1 <= i < n && Parent(i) == j
      ensures needs[t[Parent(j)]] <= needs[t[i]]
    {
    }
  }

  /** A heap ordered under an older need of the group in slot `i` is ordered around that slot. */
  lemma OldNeed(s: seq<nat>, needs: map<nat, nat>, i: nat, was: nat)
    requires i < |s| && Ordered(s, needs[s[i] := was])
    requires forall j | 0 <= j < |s| && j != i :: s[j] != s[i]
    ensures Around(s, needs, |s|, i)
  {
    var old' := needs[s[i] := was];
    if i > 0 { assert old'[s[Parent(i)]] <= old'[s[i]]; }
    forall k {:trigger Parent(k)} | 1 <= k < |s| && Parent(k) == i
      ensures i >= 1 ==> needs[s[Parent(i)]] <= needs[s[k]]
    {
      assert old'[s[i]] <= old'[s[k]];
    }
    forall k {:trigger Parent(k)} | 1 <= k < |s| && k != i && Parent(k) != i
      ensures needs[s[Parent(k)]] <= needs[s[k]]
    {
      assert old'[s[Parent(k)]] <= old'[s[k]];
    }
  }

  /** Moving the last slot into a hole leaves the others ordered around it. */
  lemma HoleFilled(s: seq<nat>, needs: map<nat, nat>, i: nat)
    requires i < |s| - 1 && Around(s, needs, |s|, i)
    ensures var t := Exchange(s, i, |s| - 1); AllKnown(t, needs, |s| - 1) && Around(t, needs, |s| - 1, i)
  {
    var t := Exchange(s, i, |s| - 1);
    forall k {:trigger Parent(k)} | 1 <= k < |s| - 1 && k != i && Parent(k) != i
      ensures needs[t[Parent(k)]] <= needs[t[k]]
    {
    }
    forall k {:trigger Parent(k)} | 1 <= k < |s| - 1 && Parent(k) == i && i >= 1
      ensures needs[t[Parent(i)]] <= needs[t[k]]
    {
    }
  }

  /** The child picked by comparing the two siblings is the lesser one. */
  lemma LesserSibling(s: seq<nat>, needs: map<nat, nat>, n: nat, h: nat, j: nat)
    requires 2 * h + 1 < n <= |s| && AllKnown(s, needs, n)
    requires j == if 2 * h + 2 < n && needs[s[2 * h + 2]] < needs[s[2 * h + 1]] then 2 * h + 2 else 2 * h + 1
    ensures Parent(j) == h
    ensures forall i {:trigger Parent(i)} | 1 <= i < n && Parent(i) == h :: needs[s[j]] <= needs[s[i]]
  {
    assert forall i {:trigger Parent(i)} | 1 <= i < n && Parent(i) == h :: i == 2 * h + 1 || i == 2 * h + 2;
  }

  /** A new last slot is a hole without children. */
  lemma HoleLast(s: seq<nat>, needs: map<nat, nat>, g: nat)
    requires Ordered(s, needs) && g in needs
    ensures AllKnown(s + [g], needs, |s| + 1)
    ensures Around(s + [g], needs, |s| + 1, |s|) && ChildrenMore(s + [g], needs, |s| + 1, |s|)
  {
    assert forall i {:trigger Parent(i)} | 1 <= i <= |s| :: Parent(i) < |s|;
  }

  /** The last slot can be dropped without disturbing the others. */
  lemma HoleDropped(s: seq<nat>, needs: map<nat, nat>)
    requires |s| > 0 && OrderedTo(s, needs, |s| - 1)
    ensures Ordered(s[..|s| - 1], needs)
  {
    var t := s[..|s| - 1];
    forall i {:trigger Parent(i)} | 1 <= i < |t| ensures needs[t[Parent(i)]] <= needs[t[i]] {
      assert needs[s[Parent(i)]] <= needs[s[i]];
    }
  }

  lemma HoleAnywhere(s: seq<nat>, needs: map<nat, nat>, h: nat)
    requires h < |s| && Ordered(s, needs)
    ensures Around(s, needs, |s|, h)
  {
    if h >= 1 { assert needs[s[Parent(h)]] <= needs[s[h]]; }
  }

  /** A hole that fits both ways is none. */
  lemma HoleClosed(s: seq<nat>, needs: map<nat, nat>, n: nat, h: nat)
    requires h < n <= |s| && AllKnown(s, needs, n) && Around(s, needs, n, h)
    requires ParentLess(s, needs, n, h) && ChildrenMore(s, needs, n, h)
    ensures OrderedTo(s, needs, n)
  {
    forall i {:trigger Parent(i)} | 1 <= i < n
      ensures needs[s[Parent(i)]] <= needs[s[i]]
    {
    }
  }

  class GroupHeap {
    var items: seq<nat>
    var index: map<nat, nat>

    /** Every group's index leads back to it. */
    ghost predicate Valid()
      reads this
    {
      && (forall i | 0 <= i < |items| :: items[i] in index && index[items[i]] == i)
      && (forall g | g in index :: index[g] < |items| && items[index[g]] == g)
    }

    constructor ()
      ensures Valid() && items == [] && index == map[]
    {
      items, index := [], map[];
    }

    method Swap(i: nat, j: nat)
      requires Valid() && i < |items| && j < |items|
      modifies this
      ensures Valid() && index.Keys == old(index.Keys)
      ensures items == Exchange(old(items), i, j)
    {
      var a, b := items[i], items[j];
      items := items[i := b][j := a];
      index := index[b := i][a := j];
    }

    /** Sifts the group at `start` towards the root of the first `n` slots. */
    method Up(start: nat, needs: map<nat, nat>, ghost n: nat)
      requires Valid() && start < n <= |items| && AllKnown(items, needs, n)
      requires Around(items, needs, n, start) && ChildrenMore(items, needs, n, start)
      modifies this
      ensures Valid() && index.Keys == old(index.Keys) && |items| == |old(items)|
      ensures OrderedTo(items, needs, n) && AllKnown(items, needs, n)
      ensures forall k | n <= k < |items| :: items[k] == old(items)[k]
    {
      var j: nat := start;
      while j > 0 && needs[items[j]] < needs[items[Parent(j)]]
        invariant Valid() && j < n <= |items| == |old(items)| && index.Keys == old(index.Keys)
        invariant (forall k | n <= k < |items| :: items[k] == old(items)[k]) && AllKnown(items, needs, n)
        invariant Around(items, needs, n, j) && ChildrenMore(items, needs, n, j)
        decreases j
      {
        HoleUp(items, needs, n, j);
        Swap(Parent(j), j);
        j := Parent(j);
      }
      HoleClosed(items, needs, n, j);
    }

    /** The child of slot `i` that needs least, if it needs less than slot `i` itself. */
    method LesserChildOf(i: nat, n: nat, needs: map<nat, nat>) returns (j: nat)
      requires i < n <= |items| && AllKnown(items, needs, n)
      ensures LesserChild(items, needs, n, i, j)
    {
      j := 2 * i + 1;
      if j >= n {
        return 0;
      }
      if j + 1 < n && needs[items[j + 1]] < needs[items[j]] {
        j := j + 1;
      }
      LesserSibling(items, needs, n, i, j);
      if needs[items[i]] <= needs[items[j]] {
        j := 0;
      }
    }

    method Sink(i: nat, j: nat, n: nat, needs: map<nat, nat>)
      requires Valid() && i < n <= |items| && AllKnown(items, needs, n) && Around(items, needs, n, i)
      requires LesserChild(items, needs, n, i, j) && j != 0
      modifies this
      ensures Valid() && index.Keys == old(index.Keys) && |items| == |old(items)|
      ensures (forall k | n <= k < |items| :: items[k] == old(items)[k]) && AllKnown(items, needs, n)
      ensures Around(items, needs, n, j) && ParentLess(items, needs, n, j)
    {
      HoleDown(items, needs, n, i, j);
      Swap(i, j);
    }

    /** Sifts the group at `start` towards the leaves of the first `n` slots. */
    method Down(start: nat, n: nat, needs: map<nat, nat>) returns (moved: bool)
      requires Valid() && start < n <= |items| && AllKnown(items, needs, n) && Around(items, needs, n, start)
      modifies this
      ensures Valid() && index.Keys == old(index.Keys) && |items| == |old(items)|
      ensures (forall k | n <= k < |items| :: items[k] == old(items)[k]) && AllKnown(items, needs, n)
      ensures moved ==> OrderedTo(items, needs, n)
      ensures !moved ==> items == old(items) && ChildrenMore(items, needs, n, start)
    {
      var i: nat := start;
      var j := LesserChildOf(i, n, needs);
      while j != 0
        invariant Valid() && start <= i < n <= |items| == |old(items)| && index.Keys == old(index.Keys)
        invariant (forall k | n <= k < |items| :: items[k] == old(items)[k]) && AllKnown(items, needs, n)
        invariant Around(items, needs, n, i)
        invariant if i == start then items == old(items) else ParentLess(items, needs, n, i)
        invariant LesserChild(items, needs, n, i, j)
        decreases n - i
      {
        Sink(i, j, n, needs);
        i := j;
        j := LesserChildOf(i, n, needs);
      }
      moved := i > start;
      if moved {
        HoleClosed(items, needs, n, i);
      }
    }

    method Push(g: nat, needs: map<nat, nat>)
      requires Valid() && g !in index && g in needs && Ordered(items, needs)
      modifies this
      ensures Valid() && Ordered(items, needs) && index.Keys == old(index.Keys) + {g}
    {
      HoleLast(items, needs, g);
      index := index[g := |items|];
      items := items + [g];
      Up(|items| - 1, needs, |items|);
    }

    /** Drops the last slot. */
    method Shrink()
      requires Valid() && |items| > 0
      modifies this
      ensures Valid() && items == old(items)[..|old(items)| - 1]
      ensures index.Keys == old(index.Keys) - {old(items)[|old(items)| - 1]}
    {
      var g := items[|items| - 1];
      items := items[..|items| - 1];
      index := index - {g};
    }

    /** Settles the group at slot `i` among the first `n` slots, whichever way it has to go. */
    method Settle(i: nat, n: nat, needs: map<nat, nat>)
      requires Valid() && i < n <= |items| && AllKnown(items, needs, n) && Around(items, needs, n, i)
      modifies this
      ensures Valid() && index.Keys == old(index.Keys) && |items| == |old(items)|
      ensures (forall k | n <= k < |items| :: items[k] == old(items)[k]) && OrderedTo(items, needs, n)
    {
      var moved := Down(i, n, needs);
      if !moved {
        Up(i, needs, n);
      }
    }

    /** Brings the group at slot `i` to the last slot and settles the one that was there. */
    method ToLast(i: nat, needs: map<nat, nat>)
      requires Valid() && i < |items| && Around(items, needs, |items|, i)
      modifies this
      ensures Valid() && index.Keys == old(index.Keys) && |items| == |old(items)|
      ensures items[|items| - 1] == old(items)[i] && OrderedTo(items, needs, |items| - 1)
    {
      var n := |items| - 1;
      if n != i {
        HoleFilled(items, needs, i);
        Swap(i, n);
        Settle(i, n, needs);
      }
    }

    /** Removes the group at slot `i`. Its own need may have changed since the heap was ordered. */
    method Remove(i: nat, needs: map<nat, nat>, ghost was: nat)
      requires Valid() && i < |items| && Ordered(items, needs[items[i] := was])
      modifies this
      ensures Valid() && Ordered(items, needs) && index.Keys == old(index.Keys) - {old(items)[i]}
    {
      OldNeed(items, needs, i, was);
      ToLast(i, needs);
      HoleDropped(items, needs);
      Shrink();
    }

    /** Restores the order after the need of the group at slot `i` changed from `was`. */
    method Fix(i: nat, needs: map<nat, nat>, ghost was: nat)
      requires Valid() && i < |items| && items[i] in needs && Ordered(items, needs[items[i] := was])
      modifies this
      ensures Valid() && Ordered(items, needs) && index.Keys == old(index.Keys)
    {
      OldNeed(items, needs, i, was);
      Settle(i, |items|, needs);
    }

    /** Removes the root. */
    method Pop(needs: map<nat, nat>) returns (g: nat)
      requires Valid() && |items| > 0 && Ordered(items, needs)
      modifies this
      ensures Valid() && Ordered(items, needs) && |items| == |old(items)| - 1
      ensures g == old(items)[0] && index.Keys == old(index.Keys) - {g}
    {
      g := items[0];
      HoleAnywhere(items, needs, 0);
      ToLast(0, needs);
      HoleDropped(items, needs);
      Shrink();
    }
  }
}
