/** `select_initial_pinners`: the loop that fills the pinner list from the two candidate
    stacks, one iteration at a time, over any kind of candidate. */
module ElectionLoop {
  import opened Types

  datatype Pool<T> = Pool(pinners: seq<T>, cip: seq<T>, ce: seq<T>) {
    function Total(): nat { |pinners| + |cip| + |ce| }
  }

  predicate Guard<T>(n: nat, p: Pool<T>) {
    |p.pinners| < n || (p.cip != [] && p.ce != [])
  }

  /** One iteration: pop a pinner candidate if there is one, else an executor candidate
      if there is one, else nothing. */
  function Iteration<T>(p: Pool<T>): Pool<T> {
    if p.cip != [] then
      Pool(p.pinners + [p.cip[|p.cip| - 1]], p.cip[..|p.cip| - 1], p.ce)
    else if p.ce != [] then
      Pool(p.pinners + [p.ce[|p.ce| - 1]], p.cip, p.ce[..|p.ce| - 1])
    else
      p
  }

  function Iterate<T>(m: nat, p: Pool<T>): Pool<T> {
    if m == 0 then p else Iterate(m - 1, Iteration(p))
  }

  /** The loop leaves after some number of iterations. */
  ghost predicate Stops<T>(n: nat, p: Pool<T>) {
    exists m: nat :: !Guard(n, Iterate(m, p))
  }

  /** Where the loop ends, when it has enough candidates to end. */
  function LoopResult<T>(n: nat, p: Pool<T>): (r: Pool<T>)
    requires n <= p.Total()
    ensures !Guard(n, r)
    decreases |p.cip| + |p.ce|
  {
    if !Guard(n, p) then p else LoopResult(n, Iteration(p))
  }

  /** Elected and left over together are the candidates there were. */
  lemma {:induction false} LoopConserves<T>(n: nat, p: Pool<T>)
    requires n <= p.Total()
    ensures var r := LoopResult(n, p);
      multiset(r.pinners) + multiset(r.cip) + multiset(r.ce)
        == multiset(p.pinners) + multiset(p.cip) + multiset(p.ce)
    decreases |p.cip| + |p.ce|
  {
    if Guard(n, p) {
      IterationConserves(p);
      LoopConserves(n, Iteration(p));
    }
  }

  lemma IterationConserves<T>(p: Pool<T>)
    ensures Iteration(p).Total() == p.Total()
    ensures var r := Iteration(p);
      multiset(r.pinners) + multiset(r.cip) + multiset(r.ce)
        == multiset(p.pinners) + multiset(p.cip) + multiset(p.ce)
  {
    if p.cip != [] {
      assert p.cip == p.cip[..|p.cip| - 1] + [p.cip[|p.cip| - 1]];
    } else if p.ce != [] {
      assert p.ce == p.ce[..|p.ce| - 1] + [p.ce[|p.ce| - 1]];
    }
  }

  /** An iteration that the guard allows leads on to the same result. */
  lemma Onward<T>(n: nat, start: Pool<T>, now: Pool<T>)
    requires now.Total() == start.Total() && Guard(n, now)
    requires n <= start.Total() ==> LoopResult(n, now) == LoopResult(n, start)
    ensures Iteration(now).Total() == start.Total()
    ensures n <= start.Total() ==> LoopResult(n, Iteration(now)) == LoopResult(n, start)
  {
    IterationConserves(now);
  }

  lemma {:induction false} IterateConserves<T>(m: nat, p: Pool<T>)
    ensures Iterate(m, p).Total() == p.Total()
  {
    if m != 0 {
      IterationConserves(p);
      IterateConserves(m - 1, Iteration(p));
    }
  }

  lemma InPrefix<T>(s: seq<T>, k: nat)
    requires k <= |s|
    ensures forall x :: x in s[..k] ==> x in s
  {
    forall x | x in s[..k] ensures x in s {
      var i :| 0 <= i < k && s[..k][i] == x;
      assert s[i] == x;
    }
  }

  lemma {:induction false} LoopMembers<T>(n: nat, p: Pool<T>)
    requires n <= p.Total()
    ensures var r := LoopResult(n, p);
      && (forall x :: x in r.ce ==> x in p.ce) && (forall x :: x in r.cip ==> x in p.cip)
      && (forall x :: x in r.pinners ==> x in p.pinners || x in p.cip || x in p.ce)
    decreases |p.cip| + |p.ce|
  {
    if Guard(n, p) {
      LoopMembers(n, Iteration(p));
      if p.cip != [] { InPrefix(p.cip, |p.cip| - 1); } else { InPrefix(p.ce, |p.ce| - 1); }
    }
  }

  /** The loop leaves exactly when there are candidates enough, and then it is in
      `LoopResult`. On every other pool it runs forever. */
  lemma LoopStopsIff<T>(n: nat, p: Pool<T>)
    ensures Stops(n, p) <==> n <= p.Total()
  {
    if n <= p.Total() {
      var m := LoopReaches(n, p);
    } else {
      forall m: nat ensures Guard(n, Iterate(m, p)) {
        IterateConserves(m, p);
      }
    }
  }

  lemma {:induction false} LoopReaches<T>(n: nat, p: Pool<T>) returns (m: nat)
    requires n <= p.Total()
    ensures Iterate(m, p) == LoopResult(n, p) && !Guard(n, Iterate(m, p))
    ensures forall i: nat :: i < m ==> Guard(n, Iterate(i, p))
    decreases |p.cip| + |p.ce|
  {
    if !Guard(n, p) {
      m := 0;
    } else {
      IterationConserves(p);
      var m' := LoopReaches(n, Iteration(p));
      m := m' + 1;
      forall i: nat | i < m ensures Guard(n, Iterate(i, p)) {
        if i != 0 { assert Iterate(i, p) == Iterate(i - 1, Iteration(p)); }
      }
    }
  }

  /** Who is elected, in closed form: the pinner candidates last come first, then as
      many executor candidates last come first as are still missing; pinner candidates
      are left over only when no executor candidate is there. */
  function Elected<T>(n: nat, p: Pool<T>): Pool<T>
    requires n <= p.Total()
  {
    var missing := if n <= |p.pinners| then 0 else n - |p.pinners|;
    if p.ce == [] then
      Pool(p.pinners + Reversed(p.cip)[..missing], p.cip[..|p.cip| - missing], [])
    else
      var more := if missing <= |p.cip| then 0 else missing - |p.cip|;
      Pool(p.pinners + Reversed(p.cip) + Reversed(p.ce)[..more], [], p.ce[..|p.ce| - more])
  }

  lemma TakeReversed<T>(s: seq<T>, m: nat)
    requires 0 < m <= |s|
    ensures Reversed(s)[..m] == [s[|s| - 1]] + Reversed(s[..|s| - 1])[..m - 1]
  {
  }

  lemma ElectedAfterPinner<T>(n: nat, p: Pool<T>)
    requires n <= p.Total() && Guard(n, p) && p.cip != []
    ensures Iteration(p).Total() == p.Total() && Elected(n, Iteration(p)) == Elected(n, p)
  {
    TakeReversed(p.cip, |p.cip|);
    assert Reversed(p.cip)[..|p.cip|] == Reversed(p.cip);
    if p.ce == [] {
      TakeReversed(p.cip, n - |p.pinners|);
    }
  }

  lemma ElectedAfterExecutor<T>(n: nat, p: Pool<T>)
    requires n <= p.Total() && Guard(n, p) && p.cip == []
    ensures Iteration(p).Total() == p.Total() && Elected(n, Iteration(p)) == Elected(n, p)
  {
    var last := |p.ce| - 1;
    var more := n - |p.pinners|;
    TakeReversed(p.ce, more);
    assert p.ce[..last][..last - (more - 1)] == p.ce[..|p.ce| - more];
    assert Reversed(p.cip) == [] && p.cip[..0] == [];
    assert Iteration(p).pinners == p.pinners + [p.ce[last]];
    if last == 0 {
      assert Elected(n, Iteration(p)).pinners == p.pinners + [p.ce[last]] + [];
    }
  }

  lemma {:induction false} LoopExact<T>(n: nat, p: Pool<T>)
    requires n <= p.Total()
    ensures LoopResult(n, p) == Elected(n, p)
    decreases |p.cip| + |p.ce|
  {
    if Guard(n, p) {
      if p.cip != [] { ElectedAfterPinner(n, p); } else { ElectedAfterExecutor(n, p); }
      LoopExact(n, Iteration(p));
    } else {
      assert Reversed(p.cip)[..0] == [] && Reversed(p.ce)[..0] == [];
      assert p.ce == [] || Reversed(p.cip) == [];
    }
  }

  /** The count: from an empty pinner list the loop elects `n`, except that it empties
      a longer stack of pinner candidates as long as an executor candidate is there. */
  lemma ElectedCount<T>(n: nat, cip: seq<T>, ce: seq<T>)
    requires n <= |cip| + |ce|
    ensures |LoopResult(n, Pool([], cip, ce)).pinners| == if ce == [] || |cip| <= n then n else |cip|
  {
    LoopExact(n, Pool([], cip, ce));
  }
}
