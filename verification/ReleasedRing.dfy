/** The last sequence numbers released without an acknowledgement, in a fixed ring. */
module ReleasedRings {
  import opened Words
  import opened WindowSpec

  /** The contents of a ring of `n` numbers whose next free place is `next`, oldest first. */
  ghost function Contents(seqs: seq<u64>, n: nat, next: nat): seq<u64>
    requires |seqs| == RING_SIZE && n <= RING_SIZE && next < RING_SIZE
  {
    if n < RING_SIZE then seqs[..n] else seqs[next..] + seqs[..next]
  }

  lemma OverwrittenFull(seqs: seq<u64>, next: nat, sn: u64)
    requires |seqs| == RING_SIZE && next < RING_SIZE
    ensures Contents(seqs[next := sn], RING_SIZE, (next + 1) % RING_SIZE) == Remember(Contents(seqs, RING_SIZE, next), sn)
  {
    var now := seqs[next := sn];
    assert (seqs[next..] + seqs[..next])[1..] == seqs[next + 1..] + seqs[..next];
    if next + 1 < RING_SIZE {
      assert now[next + 1..] == seqs[next + 1..] && now[..next + 1] == seqs[..next] + [sn];
    } else {
      assert now == seqs[..next] + [sn];
    }
  }

  lemma Overwritten(seqs: seq<u64>, n: nat, next: nat, sn: u64)
    requires |seqs| == RING_SIZE && n <= RING_SIZE && next < RING_SIZE && (n < RING_SIZE ==> next == n)
    ensures Contents(seqs[next := sn], Min(n + 1, RING_SIZE), (next + 1) % RING_SIZE)
            == Remember(Contents(seqs, n, next), sn)
  {
    if n == RING_SIZE {
      OverwrittenFull(seqs, next, sn);
    } else if n + 1 == RING_SIZE {
      assert seqs[next := sn] == seqs[..n] + [sn];
    }
  }

  class ReleasedRing {
    const seqs: array<u64>
    var n: nat
    var next: nat
    ghost var contents: seq<u64>

    ghost predicate Valid()
      reads this, seqs
    {
      && seqs.Length == RING_SIZE && next < RING_SIZE && n <= RING_SIZE && (n < RING_SIZE ==> next == n)
      && contents == Contents(seqs[..], n, next)
    }

    constructor ()
      ensures Valid() && fresh(seqs) && contents == []
    {
      seqs := new u64[RING_SIZE](_ => 0);
      n, next, contents := 0, 0, [];
    }

    method Add(sn: u64)
      requires Valid()
      modifies this, seqs
      ensures Valid() && contents == Remember(old(contents), sn)
    {
      Overwritten(seqs[..], n, next, sn);
      seqs[next] := sn;
      next := (next + 1) % RING_SIZE;
      if n < RING_SIZE {
        n := n + 1;
      }
      contents := Remember(contents, sn);
    }

    method Has(sn: u64) returns (found: bool)
      requires Valid()
      ensures found <==> sn in contents
    {
      var i := 0;
      while i < n
        invariant i <= n && sn !in seqs[..i]
      {
        if seqs[i] == sn {
          return true;
        }
        i := i + 1;
      }
      return false;
    }
  }
}
