/** Sequences used as object tables and as linked lists: totals, removal by value, order. */
module Tables {

  datatype Option<+T> = None | Some(value: T)

  /** The total of `f` over a table. */
  ghost function Sum<T>(s: seq<T>, f: T -> nat): nat {
    if |s| == 0 then 0 else Sum(s[..|s| - 1], f) + f(s[|s| - 1])
  }

  lemma {:induction false} SumUpdate<T>(s: seq<T>, i: nat, x: T, f: T -> nat)
    requires i < |s|
    ensures Sum(s[i := x], f) + f(s[i]) == Sum(s, f) + f(x)
  {
    var last := |s| - 1;
    if i == last {
      assert s[i := x][..last] == s[..last];
    } else {
      SumUpdate(s[..last], i, x, f);
      assert s[i := x][..last] == s[..last][i := x];
    }
  }

  lemma SumAppend<T>(s: seq<T>, x: T, f: T -> nat)
    ensures Sum(s + [x], f) == Sum(s, f) + f(x)
  {
    assert (s + [x])[..|s|] == s;
  }

  lemma {:induction false} SumConcat<T>(s: seq<T>, t: seq<T>, f: T -> nat)
    ensures Sum(s + t, f) == Sum(s, f) + Sum(t, f)
  {
    if |t| == 0 {
      assert s + t == s;
    } else {
      var init := t[..|t| - 1];
      SumConcat(s, init, f);
      assert s + t == (s + init) + [t[|t| - 1]];
      SumAppend(s + init, t[|t| - 1], f);
    }
  }

  lemma {:induction false} SumAtLeast<T>(s: seq<T>, i: nat, f: T -> nat)
    requires i < |s|
    ensures f(s[i]) <= Sum(s, f)
  {
    if i < |s| - 1 {
      SumAtLeast(s[..|s| - 1], i, f);
    }
  }

  /** Totals compare as their terms do. */
  lemma {:induction false} SumMonotone<T>(s: seq<T>, f: T -> nat, h: T -> nat)
    requires forall i | 0 <= i < |s| :: f(s[i]) <= h(s[i])
    ensures Sum(s, f) <= Sum(s, h)
  {
    if |s| > 0 {
      SumMonotone(s[..|s| - 1], f, h);
    }
  }

  /** A total with one nonzero term. */
  lemma {:induction false} SumSingle<T>(s: seq<T>, i: nat, f: T -> nat)
    requires i < |s| && forall j | 0 <= j < |s| && j != i :: f(s[j]) == 0
    ensures Sum(s, f) == f(s[i])
  {
    if i == |s| - 1 {
      SumZero(s[..i], f);
    } else {
      SumSingle(s[..|s| - 1], i, f);
    }
  }

  /** Totals add as their terms do. */
  lemma {:induction false} SumPlus<T>(s: seq<T>, f: T -> nat, g: T -> nat, h: T -> nat)
    requires forall i | 0 <= i < |s| :: h(s[i]) == f(s[i]) + g(s[i])
    ensures Sum(s, h) == Sum(s, f) + Sum(s, g)
  {
    if |s| > 0 {
      SumPlus(s[..|s| - 1], f, g, h);
    }
  }

  lemma SumSame<T>(s: seq<T>, f: T -> nat, h: T -> nat)
    requires forall i | 0 <= i < |s| :: f(s[i]) == h(s[i])
    ensures Sum(s, f) == Sum(s, h)
  {
    SumMonotone(s, f, h);
    SumMonotone(s, h, f);
  }

  lemma {:induction false} SumZero<T>(s: seq<T>, f: T -> nat)
    requires forall i | 0 <= i < |s| :: f(s[i]) == 0
    ensures Sum(s, f) == 0
  {
    if |s| > 0 {
      SumZero(s[..|s| - 1], f);
    }
  }

  /** What only a breaking step ends, and nothing restores, holds as long as no step broke it. */
  lemma {:induction false} HoldsUntil(holds: seq<bool>, breaks: seq<bool>, i: nat)
    requires |holds| == |breaks| + 1 && holds[0] && i < |holds|
    requires forall j | 0 <= j < |breaks| :: holds[j + 1] == (holds[j] && !breaks[j])
    ensures holds[i] <==> forall j | 0 <= j < i :: !breaks[j]
  {
    if i > 0 { HoldsUntil(holds, breaks, i - 1); }
  }

  /** A list with every occurrence of `x` unlinked. */
  function Without(s: seq<nat>, x: nat): seq<nat> {
    if |s| == 0 then []
    else if s[|s| - 1] == x then Without(s[..|s| - 1], x)
    else Without(s[..|s| - 1], x) + [s[|s| - 1]]
  }

  ghost predicate Increasing(s: seq<nat>) {
    forall i, j | 0 <= i < j < |s| :: s[i] < s[j]
  }

  ghost predicate Distinct(s: seq<nat>) {
    forall i, j | 0 <= i < j < |s| :: s[i] != s[j]
  }

  lemma {:induction false} WithoutMembers(s: seq<nat>, x: nat)
    ensures forall y :: y in Without(s, x) <==> y in s && y != x
    ensures x !in s ==> Without(s, x) == s
  {
    if |s| > 0 {
      var init := s[..|s| - 1];
      WithoutMembers(init, x);
      assert s == init + [s[|s| - 1]];
    }
  }

  lemma {:induction false} WithoutOrder(s: seq<nat>, x: nat)
    ensures Increasing(s) ==> Increasing(Without(s, x))
    ensures Distinct(s) ==> Distinct(Without(s, x))
  {
    if |s| > 0 {
      var init, last := s[..|s| - 1], s[|s| - 1];
      WithoutOrder(init, x);
      WithoutMembers(init, x);
      assert forall i | 0 <= i < |Without(init, x)| :: Without(init, x)[i] in init;
    }
  }

  /** Where an element of a list without duplicates sits after another one is unlinked. */
  lemma {:induction false} WithoutPosition(s: seq<nat>, i: nat, j: nat)
    requires Distinct(s) && i < |s| && j < |s| && i != j
    ensures |Without(s, s[i])| == |s| - 1
    ensures Without(s, s[i])[if i < j then j - 1 else j] == s[j]
  {
    var init, last := s[..|s| - 1], |s| - 1;
    if i == last {
      WithoutMembers(init, s[i]);
      assert Without(s, s[i]) == init;
    } else {
      if j < last {
        WithoutPosition(init, i, j);
      } else if |init| > 1 {
        WithoutPosition(init, i, if i == 0 then 1 else 0);
      } else {
        assert init == [s[i]] && Without([], s[i]) == [];
        assert Without(init, s[i]) == Without(init[..0], s[i]);
      }
    }
  }
}
