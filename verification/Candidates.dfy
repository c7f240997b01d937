/** Which swarm peers are invited to be initial pinners. */
module Candidates {
  import opened Types

  /** `calculate_lucky_number`: the last byte of the id, modulo n. */
  function Lucky(n: Byte, id: Id): (r: Byte)
    requires n != 0
    ensures r < n
  {
    id[|id| - 1] % n
  }

  function Distance(n: Byte, task: Id, id: Id): (r: nat)
    requires n != 0
    ensures r < n
  {
    var a, b := Lucky(n, id), Lucky(n, task);
    if a < b then b - a else a - b
  }

  // ---------------------------------------------------------------- specification

  /** The ids at distance d, in their order. */
  function Class(n: Byte, task: Id, ids: seq<Id>, d: nat): (r: seq<Id>)
    requires n != 0
  {
    if ids == [] then []
    else
      var last := ids[|ids| - 1];
      var before := Class(n, task, ids[..|ids| - 1], d);
      if Distance(n, task, last) == d then before + [last] else before
  }

  /** The ids closer than d, class by class. */
  function Within(n: Byte, task: Id, ids: seq<Id>, d: nat): (r: seq<Id>)
    requires n != 0
  {
    if d == 0 then [] else Within(n, task, ids, d - 1) + Class(n, task, ids, d - 1)
  }

  lemma {:induction false} ClassUniform(n: Byte, task: Id, ids: seq<Id>, d: nat)
    requires n != 0
    ensures forall x :: x in Class(n, task, ids, d) ==> Distance(n, task, x) == d
  {
    if ids != [] { ClassUniform(n, task, ids[..|ids| - 1], d); }
  }

  lemma {:induction false} WithinCloser(n: Byte, task: Id, ids: seq<Id>, d: nat)
    requires n != 0
    ensures forall x :: x in Within(n, task, ids, d) ==> Distance(n, task, x) < d
  {
    if d != 0 {
      WithinCloser(n, task, ids, d - 1);
      ClassUniform(n, task, ids, d - 1);
    }
  }

  /** The ids at distance d or more, in their order. */
  function Beyond(n: Byte, task: Id, ids: seq<Id>, d: nat): (r: seq<Id>)
    requires n != 0
  {
    if ids == [] then []
    else
      var last := ids[|ids| - 1];
      var before := Beyond(n, task, ids[..|ids| - 1], d);
      if d <= Distance(n, task, last) then before + [last] else before
  }

  ghost predicate Ordered(n: Byte, task: Id, s: seq<Id>)
    requires n != 0
  {
    forall i, j :: 0 <= i < j < |s| ==> Distance(n, task, s[i]) <= Distance(n, task, s[j])
  }

  /** s is the ids sorted by distance, ids of one distance in the order they had. */
  ghost predicate IsStableSort(n: Byte, task: Id, ids: seq<Id>, s: seq<Id>)
    requires n != 0
  {
    && Ordered(n, task, s)
    && (forall d: nat :: Class(n, task, s, d) == Class(n, task, ids, d))
  }

  function Sorted(n: Byte, task: Id, ids: seq<Id>): seq<Id>
    requires n != 0
  {
    Within(n, task, ids, n)
  }

  lemma {:induction false} ClassConcat(n: Byte, task: Id, a: seq<Id>, b: seq<Id>, d: nat)
    requires n != 0
    ensures Class(n, task, a + b, d) == Class(n, task, a, d) + Class(n, task, b, d)
  {
    if b == [] {
      assert a + b == a;
    } else {
      var last := |b| - 1;
      assert (a + b)[..|a + b| - 1] == a + b[..last];
      ClassConcat(n, task, a, b[..last], d);
    }
  }

  lemma {:induction false} ClassOfUniform(n: Byte, task: Id, s: seq<Id>, e: nat, d: nat)
    requires n != 0 && forall x :: x in s ==> Distance(n, task, x) == e
    ensures Class(n, task, s, d) == if d == e then s else []
  {
    if s != [] { ClassOfUniform(n, task, s[..|s| - 1], e, d); }
  }

  lemma ClassOfMore(n: Byte, task: Id, before: seq<Id>, more: seq<Id>, e: nat, d: nat)
    requires n != 0 && forall x :: x in more ==> Distance(n, task, x) == e
    ensures Class(n, task, before + more, d) == Class(n, task, before, d) + if d == e then more else []
  {
    ClassConcat(n, task, before, more, d);
    ClassOfUniform(n, task, more, e, d);
  }

  lemma {:induction false} ClassFar(n: Byte, task: Id, s: seq<Id>, d: nat)
    requires n != 0 && forall x :: x in s ==> Distance(n, task, x) < d
    ensures Class(n, task, s, d) == []
  {
    if s != [] { ClassFar(n, task, s[..|s| - 1], d); }
  }

  lemma ClassAbove(n: Byte, task: Id, ids: seq<Id>, r: nat, d: nat)
    requires n != 0 && r <= d
    ensures Class(n, task, Within(n, task, ids, r), d) == []
  {
    WithinCloser(n, task, ids, r);
    ClassFar(n, task, Within(n, task, ids, r), d);
  }

  lemma ClassNext(n: Byte, task: Id, ids: seq<Id>, r: nat, d: nat)
    requires n != 0 && 0 < r
    ensures Class(n, task, Within(n, task, ids, r), d)
         == Class(n, task, Within(n, task, ids, r - 1), d) + if d == r - 1 then Class(n, task, ids, d) else []
  {
    ClassUniform(n, task, ids, r - 1);
    ClassOfMore(n, task, Within(n, task, ids, r - 1), Class(n, task, ids, r - 1), r - 1, d);
  }

  lemma {:induction false} ClassBelow(n: Byte, task: Id, ids: seq<Id>, r: nat, d: nat)
    requires n != 0 && d < r
    ensures Class(n, task, Within(n, task, ids, r), d) == Class(n, task, ids, d)
  {
    ClassNext(n, task, ids, r, d);
    if d == r - 1 { ClassAbove(n, task, ids, d, d); } else { ClassBelow(n, task, ids, r - 1, d); }
  }

  lemma ClassOfWithin(n: Byte, task: Id, ids: seq<Id>, r: nat, d: nat)
    requires n != 0
    ensures Class(n, task, Within(n, task, ids, r), d) == if d < r then Class(n, task, ids, d) else []
  {
    if d < r { ClassBelow(n, task, ids, r, d); } else { ClassAbove(n, task, ids, r, d); }
  }

  lemma {:induction false} WithinOrdered(n: Byte, task: Id, ids: seq<Id>, r: nat)
    requires n != 0
    ensures Ordered(n, task, Within(n, task, ids, r))
  {
    if r != 0 {
      WithinOrdered(n, task, ids, r - 1);
      var w, c := Within(n, task, ids, r - 1), Class(n, task, ids, r - 1);
      forall i, j | 0 <= i < j < |w + c|
        ensures Distance(n, task, (w + c)[i]) <= Distance(n, task, (w + c)[j])
      {
        WithinCloser(n, task, ids, r - 1);
        ClassUniform(n, task, ids, r - 1);
        assert i < |w| ==> (w + c)[i] == w[i] && w[i] in w;
        assert |w| <= i ==> (w + c)[i] == c[i - |w|] && c[i - |w|] in c;
        assert j < |w| ==> (w + c)[j] == w[j];
        assert |w| <= j ==> (w + c)[j] == c[j - |w|] && c[j - |w|] in c;
      }
    }
  }

  lemma WithinOfLast(n: Byte, task: Id, s: seq<Id>, r: nat)
    requires n != 0 && s != [] && 0 < r && Distance(n, task, s[|s| - 1]) == r - 1
    ensures Within(n, task, s, r) == Within(n, task, s[..|s| - 1], r) + [s[|s| - 1]]
  {
    var init := s[..|s| - 1];
    assert s == init + [s[|s| - 1]];
    WithinAppend(n, task, init, s[|s| - 1], r - 1);
  }

  lemma OrderedInit(n: Byte, task: Id, s: seq<Id>, r: nat)
    requires n != 0 && s != [] && Ordered(n, task, s) && Distance(n, task, s[|s| - 1]) < r
    ensures Ordered(n, task, s[..|s| - 1])
    ensures 1 < |s| ==> Distance(n, task, s[..|s| - 1][|s| - 2]) < r
    ensures s == s[..|s| - 1] + [s[|s| - 1]]
  {
  }

  lemma OrderedNoClass(n: Byte, task: Id, s: seq<Id>, d: nat)
    requires n != 0 && s != [] && Ordered(n, task, s) && Distance(n, task, s[|s| - 1]) < d
    ensures Class(n, task, s, d) == []
  {
    forall x | x in s ensures Distance(n, task, x) < d {
      var i :| 0 <= i < |s| && s[i] == x;
    }
    ClassFar(n, task, s, d);
  }

  lemma {:induction false} WithinNothing(n: Byte, task: Id, r: nat)
    requires n != 0
    ensures Within(n, task, [], r) == []
  {
    if r != 0 { WithinNothing(n, task, r - 1); }
  }

  lemma OrderedSkips(n: Byte, task: Id, s: seq<Id>, r: nat)
    requires n != 0 && r != 0 && s != [] && Ordered(n, task, s) && Distance(n, task, s[|s| - 1]) < r - 1
    ensures Within(n, task, s, r) == Within(n, task, s, r - 1)
  {
    OrderedNoClass(n, task, s, r - 1);
  }

  /** An ordered sequence is its own classes, one after the other. */
  lemma {:induction false} OrderedIsWithin(n: Byte, task: Id, s: seq<Id>, r: nat)
    requires n != 0 && Ordered(n, task, s)
    requires s != [] ==> Distance(n, task, s[|s| - 1]) < r
    ensures Within(n, task, s, r) == s
    decreases r, |s|
  {
    if s == [] {
      WithinNothing(n, task, r);
    } else {
      var last := s[|s| - 1];
      if Distance(n, task, last) == r - 1 {
        OrderedInit(n, task, s, r);
        OrderedIsWithin(n, task, s[..|s| - 1], r);
        WithinOfLast(n, task, s, r);
      } else {
        OrderedIsWithin(n, task, s, r - 1);
        OrderedSkips(n, task, s, r);
      }
    }
  }

  /** An id farther than r changes no class closer than r. */
  lemma {:induction false} WithinAppend(n: Byte, task: Id, s: seq<Id>, x: Id, r: nat)
    requires n != 0 && r <= Distance(n, task, x)
    ensures Within(n, task, s + [x], r) == Within(n, task, s, r)
  {
    if r != 0 {
      WithinAppend(n, task, s, x, r - 1);
      assert (s + [x])[..|s|] == s;
    }
  }

  lemma {:induction false} WithinByClasses(n: Byte, task: Id, a: seq<Id>, b: seq<Id>, r: nat)
    requires n != 0 && forall d: nat :: Class(n, task, a, d) == Class(n, task, b, d)
    ensures Within(n, task, a, r) == Within(n, task, b, r)
  {
    if r != 0 { WithinByClasses(n, task, a, b, r - 1); }
  }

  /** `Sorted` is the stable sort by distance, and there is no other. */
  lemma SortedIsTheStableSort(n: Byte, task: Id, ids: seq<Id>, s: seq<Id>)
    requires n != 0
    ensures IsStableSort(n, task, ids, s) <==> s == Sorted(n, task, ids)
  {
    var sorted := Sorted(n, task, ids);
    WithinOrdered(n, task, ids, n);
    forall d: nat ensures Class(n, task, sorted, d) == Class(n, task, ids, d) {
      ClassOfWithin(n, task, ids, n, d);
      if n <= d { ClassFar(n, task, ids, d); }
    }
    if IsStableSort(n, task, ids, s) {
      OrderedIsWithin(n, task, s, n);
      WithinByClasses(n, task, s, ids, n);
    }
  }

  lemma {:induction false} WithinPrefix(n: Byte, task: Id, ids: seq<Id>, r: nat, m: nat)
    requires n != 0 && r <= m
    ensures Within(n, task, ids, r) <= Within(n, task, ids, m)
  {
    if r < m { WithinPrefix(n, task, ids, r, m - 1); }
  }

  lemma {:induction false} BeyondStart(n: Byte, task: Id, ids: seq<Id>)
    requires n != 0
    ensures Beyond(n, task, ids, 0) == ids
  {
    if ids != [] { BeyondStart(n, task, ids[..|ids| - 1]); }
  }

  lemma {:induction false} BeyondStep(n: Byte, task: Id, ids: seq<Id>, d: nat)
    requires n != 0
    ensures Class(n, task, Beyond(n, task, ids, d), d) == Class(n, task, ids, d)
    ensures Beyond(n, task, Beyond(n, task, ids, d), d + 1) == Beyond(n, task, ids, d + 1)
  {
    if ids != [] {
      BeyondStep(n, task, ids[..|ids| - 1], d);
      var before := Beyond(n, task, ids[..|ids| - 1], d);
      var all := Beyond(n, task, ids, d);
      if d <= Distance(n, task, ids[|ids| - 1]) { assert all[..|all| - 1] == before; }
    }
  }

  lemma {:induction false} BeyondAll(n: Byte, task: Id, ids: seq<Id>)
    requires n != 0
    ensures Beyond(n, task, ids, n) == []
  {
    if ids != [] { BeyondAll(n, task, ids[..|ids| - 1]); }
  }

  lemma Move<T>(a: seq<T>, b: seq<T>, c: seq<T>, d: seq<T>, all: multiset<T>)
    requires multiset(a) + multiset(c) == all && multiset(b) + multiset(d) == multiset(c)
    ensures multiset(a + b) + multiset(d) == all
  {
  }

  ghost predicate Partition<T>(selected: seq<T>, left: seq<T>, all: seq<T>) {
    multiset(selected) + multiset(left) == multiset(all)
  }

  lemma SplitMoves(n: Byte, task: Id, ids: seq<Id>, d: nat)
    requires n != 0 && d != 0 && Partition(Within(n, task, ids, d - 1), Beyond(n, task, ids, d - 1), ids)
    ensures Partition(Within(n, task, ids, d), Beyond(n, task, ids, d), ids)
  {
    var a, b, rest := Within(n, task, ids, d - 1), Class(n, task, ids, d - 1), Beyond(n, task, ids, d);
    PeelConserves(n, task, ids, d - 1);
    Move(a, b, Beyond(n, task, ids, d - 1), rest, multiset(ids));
    assert Within(n, task, ids, d) == a + b;
  }

  lemma SplitBegins(n: Byte, task: Id, ids: seq<Id>)
    requires n != 0
    ensures Partition(Within(n, task, ids, 0), Beyond(n, task, ids, 0), ids)
  {
    BeyondStart(n, task, ids);
    assert Within(n, task, ids, 0) == [];
  }

  /** Selected and left over together are the peers there were. */
  lemma {:induction false} SplitConserves(n: Byte, task: Id, ids: seq<Id>, d: nat)
    requires n != 0
    ensures Partition(Within(n, task, ids, d), Beyond(n, task, ids, d), ids)
  {
    if d == 0 {
      SplitBegins(n, task, ids);
    } else {
      SplitConserves(n, task, ids, d - 1);
      SplitMoves(n, task, ids, d);
    }
  }

  lemma {:induction false} PeelConserves(n: Byte, task: Id, ids: seq<Id>, d: nat)
    requires n != 0
    ensures multiset(Class(n, task, ids, d)) + multiset(Beyond(n, task, ids, d + 1))
         == multiset(Beyond(n, task, ids, d))
  {
    if ids != [] { PeelConserves(n, task, ids[..|ids| - 1], d); }
  }

  lemma AllWithin(n: Byte, task: Id, ids: seq<Id>)
    requires n != 0
    ensures multiset(Sorted(n, task, ids)) == multiset(ids) && |Sorted(n, task, ids)| == |ids|
  {
    SplitConserves(n, task, ids, n);
    BeyondAll(n, task, ids);
    assert multiset(Sorted(n, task, ids)) == multiset(ids);
    assert |multiset(Sorted(n, task, ids))| == |multiset(ids)|;
  }

  lemma CountWithin(n: Byte, task: Id, ids: seq<Id>)
    requires n != 0
    ensures |Within(n, task, ids, n)| == |ids|
  {
    AllWithin(n, task, ids);
  }

  predicate Enough(n: Byte, task: Id, ids: seq<Id>, d: nat)
    requires n != 0
  {
    2 * n <= |Within(n, task, ids, d)|
  }

  /** The first number of classes that holds 2n peers. */
  function Rounds(n: Byte, task: Id, ids: seq<Id>, from: nat): (r: nat)
    requires n != 0 && from <= n && 2 * n <= |ids|
    ensures from <= r <= n && Enough(n, task, ids, r)
    ensures forall e :: from <= e < r ==> !Enough(n, task, ids, e)
    decreases n - from
  {
    if Enough(n, task, ids, from) then from
    else
      CountWithin(n, task, ids);
      Rounds(n, task, ids, from + 1)
  }

  // ---------------------------------------------------------------- the loop

  /** The ids within distance d, in their order. */
  function Near(n: Byte, task: Id, ids: seq<Id>, d: nat): (r: seq<Id>)
    requires n != 0
  {
    if ids == [] then []
    else
      var last := ids[|ids| - 1];
      var before := Near(n, task, ids[..|ids| - 1], d);
      if Distance(n, task, last) <= d then before + [last] else before
  }

  /** Where nobody is closer, those within d are those at d. */
  lemma {:induction false} NearIsClass(n: Byte, task: Id, ids: seq<Id>, d: nat)
    requires n != 0 && forall x :: x in ids ==> d <= Distance(n, task, x)
    ensures Near(n, task, ids, d) == Class(n, task, ids, d)
  {
    if ids != [] {
      assert ids[|ids| - 1] in ids && forall x :: x in ids[..|ids| - 1] ==> x in ids;
      NearIsClass(n, task, ids[..|ids| - 1], d);
    }
  }

  lemma FilterOne(n: Byte, task: Id, left: seq<Id>, i: nat, d: nat)
    requires n != 0 && i < |left|
    ensures var near := Distance(n, task, left[i]) <= d;
      && Near(n, task, left[..i + 1], d) == Near(n, task, left[..i], d) + (if near then [left[i]] else [])
      && Beyond(n, task, left[..i + 1], d + 1) == Beyond(n, task, left[..i], d + 1) + (if near then [] else [left[i]])
  {
    assert left[..i + 1][..i] == left[..i];
  }

  /** One pass of the filter: peers within `distance` move to the selection. The
      difference is taken in i16 and its absolute value cut to a u8. */
  method FilterRound(left: seq<Id>, selected: seq<Id>, n: Byte, task: Id, distance: Byte)
    returns (selected': seq<Id>, rest: seq<Id>)
    requires n != 0
    ensures selected' == selected + Near(n, task, left, distance)
    ensures rest == Beyond(n, task, left, distance + 1)
  {
    var lucky := Lucky(n, task);
    rest := [];
    var near: seq<Id> := [];
    for i := 0 to |left|
      invariant rest == Beyond(n, task, left[..i], distance + 1)
      invariant near == Near(n, task, left[..i], distance)
    {
      FilterOne(n, task, left, i, distance);
      var apart := Lucky(n, left[i]) - lucky;
      if (if apart < 0 then -apart else apart) % 256 <= distance {
        near := near + [left[i]];
      } else {
        rest := rest + [left[i]];
      }
    }
    assert left[..|left|] == left;
    selected' := selected + near;
  }

  lemma {:induction false} BeyondIsFar(n: Byte, task: Id, ids: seq<Id>, d: nat)
    requires n != 0
    ensures forall x :: x in Beyond(n, task, ids, d) ==> d <= Distance(n, task, x)
  {
    if ids != [] { BeyondIsFar(n, task, ids[..|ids| - 1], d); }
  }

  lemma NothingLeft(n: Byte, task: Id, ids: seq<Id>, d: nat)
    requires n != 0 && Beyond(n, task, ids, d) == []
    ensures |Within(n, task, ids, d)| == |ids|
  {
    SplitConserves(n, task, ids, d);
    assert multiset(Within(n, task, ids, d)) == multiset(ids);
    assert |multiset(Within(n, task, ids, d))| == |multiset(ids)|;
  }

  /** After so many rounds: who is selected and who is left. */
  ghost predicate Split(n: Byte, task: Id, ids: seq<Id>, d: nat, selected: seq<Id>, left: seq<Id>)
    requires n != 0
  {
    selected == Within(n, task, ids, d) && left == Beyond(n, task, ids, d)
  }

  lemma SplitStart(n: Byte, task: Id, ids: seq<Id>)
    requires n != 0
    ensures Split(n, task, ids, 0, [], ids)
  {
    BeyondStart(n, task, ids);
  }

  lemma SplitStep(n: Byte, task: Id, ids: seq<Id>, d: nat, selected: seq<Id>, left: seq<Id>)
    requires n != 0 && Split(n, task, ids, d, selected, left)
    ensures Split(n, task, ids, d + 1, selected + Near(n, task, left, d), Beyond(n, task, left, d + 1))
  {
    BeyondIsFar(n, task, ids, d);
    NearIsClass(n, task, left, d);
    BeyondStep(n, task, ids, d);
  }

  /** The selection falls short exactly in the rounds before the decisive one, and as long
      as it does, somebody is left. */
  lemma SplitShort(n: Byte, task: Id, ids: seq<Id>, d: nat, selected: seq<Id>, left: seq<Id>)
    requires n != 0 && 2 * n <= |ids| && d <= Rounds(n, task, ids, 0) && Split(n, task, ids, d, selected, left)
    ensures |selected| < 2 * n <==> d < Rounds(n, task, ids, 0)
    ensures |selected| < 2 * n ==> left != []
  {
    if left == [] { NothingLeft(n, task, ids, d); }
    assert Enough(n, task, ids, d) <==> 2 * n <= |selected|;
  }

  /** `random_select_peers`. `distance` is a u8 that is only ever incremented; it stays
      within n, and the leftover list is never what ends the loop. */
  method RandomSelectPeers(ids: seq<Id>, n: Byte, task: Id) returns (selected: seq<Id>)
    requires n != 0
    ensures |ids| < 2 * n ==> selected == ids
    ensures 2 * n <= |ids| ==> selected == Within(n, task, ids, Rounds(n, task, ids, 0))
  {
    var count := n * 2;
    if |ids| < count { return ids; }
    var left := ids;
    var distance: Byte := 0;
    selected := [];
    ghost var rounds := Rounds(n, task, ids, 0);
    SplitStart(n, task, ids);
    SplitShort(n, task, ids, 0, selected, left);
    while |selected| < count && left != []
      invariant distance <= rounds && Split(n, task, ids, distance, selected, left)
      invariant |selected| < count <==> distance < rounds
      invariant |selected| < count ==> left != []
      decreases rounds - distance
    {
      SplitStep(n, task, ids, distance, selected, left);
      selected, left := FilterRound(left, selected, n, task, distance);
      distance := distance + 1;
      SplitShort(n, task, ids, distance, selected, left);
    }
  }

  // ---------------------------------------------------------------- the invitation

  function Excluding(ids: seq<Id>, filtered: seq<Id>): (r: seq<Id>)
    ensures forall x :: x in r <==> x in ids && x !in filtered
    ensures Distinct(ids) ==> Distinct(r)
  {
    if ids == [] then []
    else
      var last := ids[|ids| - 1];
      var before := Excluding(ids[..|ids| - 1], filtered);
      if last in filtered then before else before + [last]
  }

  /** The peers that `invite_candidate_initial_pinners` writes to: all that are eligible
      when they are fewer than 2n, else the 2n nearest. */
  function Invited(n: Byte, task: Id, swarm: seq<Id>, filtered: seq<Id>): seq<Id>
    requires n != 0
  {
    var eligible := Excluding(swarm, filtered);
    if |eligible| < 2 * n then eligible
    else
      AllWithin(n, task, eligible);
      Sorted(n, task, eligible)[..2 * n]
  }

  lemma CutOfRounds(n: Byte, task: Id, ids: seq<Id>)
    requires n != 0 && 2 * n <= |ids|
    ensures |Sorted(n, task, ids)| == |ids|
    ensures var selected := Within(n, task, ids, Rounds(n, task, ids, 0));
      2 * n <= |selected| && selected[..2 * n] == Sorted(n, task, ids)[..2 * n]
  {
    AllWithin(n, task, ids);
    WithinPrefix(n, task, ids, Rounds(n, task, ids, 0), n);
  }

  /** Cutting after a whole class and then taking 2n is taking the 2n nearest. */
  method InvitedPeers(n: Byte, task: Id, swarm: seq<Id>, filtered: seq<Id>) returns (invited: seq<Id>)
    requires n != 0
    ensures invited == Invited(n, task, swarm, filtered)
  {
    var eligible := Excluding(swarm, filtered);
    var selected := RandomSelectPeers(eligible, n, task);
    if 2 * n <= |eligible| { CutOfRounds(n, task, eligible); }
    invited := if |selected| <= n * 2 then selected else selected[..n * 2];
  }

  lemma CutIsNearest(n: Byte, task: Id, s: seq<Id>, m: nat, x: Id, y: Id)
    requires n != 0 && Ordered(n, task, s) && m <= |s| && x in s[..m] && y in s[m..]
    ensures Distance(n, task, x) <= Distance(n, task, y)
  {
    var i :| 0 <= i < m && s[..m][i] == x;
    var j :| 0 <= j < |s| - m && s[m..][j] == y;
    assert s[i] == x && s[m + j] == y;
  }

  /** The invited peers are eligible, as many as there can be up to 2n, and no eligible
      peer that was passed over is strictly closer than one that was invited. */
  lemma InvitedAreNearest(n: Byte, task: Id, swarm: seq<Id>, filtered: seq<Id>)
    returns (passed: seq<Id>)
    requires n != 0
    ensures var invited, eligible := Invited(n, task, swarm, filtered), Excluding(swarm, filtered);
      && |invited| == (if |eligible| < 2 * n then |eligible| else 2 * n)
      && multiset(invited) + multiset(passed) == multiset(eligible)
      && (forall x, y :: x in invited && y in passed ==> Distance(n, task, x) <= Distance(n, task, y))
      && (forall x :: x in invited ==> x in swarm && x !in filtered)
  {
    var eligible := Excluding(swarm, filtered);
    passed := [];
    if 2 * n <= |eligible| {
      AllWithin(n, task, eligible);
      WithinOrdered(n, task, eligible, n);
      var s := Sorted(n, task, eligible);
      passed := s[2 * n..];
      assert s == s[..2 * n] + passed;
      forall x | x in s[..2 * n] ensures x in eligible {
        assert x in multiset(s);
      }
      forall x, y | x in s[..2 * n] && y in passed
        ensures Distance(n, task, x) <= Distance(n, task, y)
      {
        CutIsNearest(n, task, s, 2 * n, x, y);
      }
    }
  }

  /** Distinct peers are invited once each. */
  lemma InvitedDistinct(n: Byte, task: Id, swarm: seq<Id>, filtered: seq<Id>)
    requires n != 0 && Distinct(swarm)
    ensures Distinct(Invited(n, task, swarm, filtered))
  {
    var eligible := Excluding(swarm, filtered);
    if 2 * n <= |eligible| {
      AllWithin(n, task, eligible);
      DistinctIsOnce(eligible);
      DistinctIsOnce(Sorted(n, task, eligible));
    }
  }

  /** Filtering goes through the list element by element and keeps its order. */
  lemma {:induction false} ExcludingSplits(a: seq<Id>, b: seq<Id>, filtered: seq<Id>)
    ensures Excluding(a + b, filtered) == Excluding(a, filtered) + Excluding(b, filtered)
    ensures |b| == 1 ==> Excluding(b, filtered) == if b[0] in filtered then [] else b
  {
    if b == [] {
      assert a + b == a;
    } else {
      var last := |b| - 1;
      assert (a + b)[..|a + b| - 1] == a + b[..last];
      ExcludingSplits(a, b[..last], filtered);
    }
  }

  function Apart(a: int, b: int): nat { if a < b then b - a else a - b }

  lemma DistanceByLastByte(n: Byte, task: Id, id: Id)
    requires n != 0
    ensures Distance(n, task, id) == Apart(id[|id| - 1] % n, task[|task| - 1] % n)
  {
  }

  lemma NotInvitedIsPassed(eligible: seq<Id>, invited: seq<Id>, passed: seq<Id>, y: Id)
    requires multiset(invited) + multiset(passed) == multiset(eligible) && y in eligible && y !in invited
    ensures y in passed
  {
    assert y in multiset(eligible);
    assert y in multiset(passed);
  }

  /** Nearness, told by the bytes of the ids: an invited peer is eligible, and the last byte of
      an eligible peer that was passed over is, modulo n, no nearer to the task id's last
      byte, modulo n, than that of an invited one. */
  lemma InvitedByLastByte(n: Byte, task: Id, swarm: seq<Id>, filtered: seq<Id>, x: Id, y: Id)
    requires n != 0 && x in Invited(n, task, swarm, filtered)
    requires y in swarm && y !in filtered && y !in Invited(n, task, swarm, filtered)
    ensures x in swarm && x !in filtered
    ensures Apart(x[|x| - 1] % n, task[|task| - 1] % n) <= Apart(y[|y| - 1] % n, task[|task| - 1] % n)
  {
    var passed := InvitedAreNearest(n, task, swarm, filtered);
    NotInvitedIsPassed(Excluding(swarm, filtered), Invited(n, task, swarm, filtered), passed, y);
    DistanceByLastByte(n, task, x);
    DistanceByLastByte(n, task, y);
  }

  /** If there are 2n eligible peers whose last byte agrees with the task id's modulo n, then
      every invited peer's does. */
  lemma CongruentInvited(n: Byte, task: Id, swarm: seq<Id>, filtered: seq<Id>, near: set<Id>, x: Id)
    requires n != 0 && Distinct(swarm) && 2 * n <= |near|
    requires forall y :: y in near ==> y in swarm && y !in filtered && y[|y| - 1] % n == task[|task| - 1] % n
    requires x in Invited(n, task, swarm, filtered)
    ensures x[|x| - 1] % n == task[|task| - 1] % n
  {
    var invited := Invited(n, task, swarm, filtered);
    if x[|x| - 1] % n != task[|task| - 1] % n {
      forall y | y in near ensures y in invited {
        if y !in invited { InvitedByLastByte(n, task, swarm, filtered, x, y); }
      }
      InvitedDistinct(n, task, swarm, filtered);
      DistinctCount(invited);
      var passed := InvitedAreNearest(n, task, swarm, filtered);
      SubsetSize(near, Elements(invited) - {x});
    }
  }
}
