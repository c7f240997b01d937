/** Who is elected, told by the order in which the successes arrived. */
module ElectionOrder {
  import opened Types
  import opened KeyGenTypes
  import opened ElectionLoop
  import opened KeyGenElection

  /** The positions of the successes of one role, in order. */
  function Positions(arrivals: seq<Arrival>, executor: bool): (r: seq<nat>)
    ensures forall j :: 0 <= j < |r| ==> r[j] < |arrivals| && arrivals[r[j]].executor == executor
  {
    if arrivals == [] then []
    else
      var last := |arrivals| - 1;
      var before := Positions(arrivals[..last], executor);
      if arrivals[last].executor == executor then before + [last] else before
  }

  lemma {:induction false} PositionsAscend(arrivals: seq<Arrival>, executor: bool, a: nat, b: nat)
    requires a < b < |Positions(arrivals, executor)|
    ensures Positions(arrivals, executor)[a] < Positions(arrivals, executor)[b]
  {
    var last := |arrivals| - 1;
    if b < |Positions(arrivals[..last], executor)| {
      PositionsAscend(arrivals[..last], executor, a, b);
    }
  }

  lemma {:induction false} PositionOf(arrivals: seq<Arrival>, executor: bool, j: nat) returns (i: nat)
    requires j < |arrivals| && arrivals[j].executor == executor
    ensures i < |Positions(arrivals, executor)| && Positions(arrivals, executor)[i] == j
  {
    var last := |arrivals| - 1;
    if j == last {
      i := |Positions(arrivals[..last], executor)|;
    } else {
      i := PositionOf(arrivals[..last], executor, j);
    }
  }

  /** The candidates at these positions. */
  function At(arrivals: seq<Arrival>, places: seq<nat>): (r: seq<NodeInfo>)
    requires forall j :: 0 <= j < |places| ==> places[j] < |arrivals|
    ensures |r| == |places| && forall j :: 0 <= j < |r| ==> r[j] == arrivals[places[j]].who
  {
    seq(|places|, j requires 0 <= j < |places| => arrivals[places[j]].who)
  }

  lemma {:induction false} CandidatesAt(arrivals: seq<Arrival>, executor: bool)
    ensures Candidates(arrivals, executor) == At(arrivals, Positions(arrivals, executor))
  {
    if arrivals != [] {
      var last := |arrivals| - 1;
      CandidatesAt(arrivals[..last], executor);
      AtGrows(arrivals, Positions(arrivals[..last], executor));
    }
  }

  lemma AtGrows(arrivals: seq<Arrival>, places: seq<nat>)
    requires arrivals != [] && forall j :: 0 <= j < |places| ==> places[j] < |arrivals| - 1
    ensures var last := |arrivals| - 1;
      && At(arrivals, places) == At(arrivals[..last], places)
      && At(arrivals, places + [last]) == At(arrivals[..last], places) + [arrivals[last].who]
  {
  }

  /** The last executor candidate. */
  ghost predicate LastToExecute(used: seq<Arrival>, x: nat) {
    x < |used| && used[x].executor && forall j :: x < j < |used| ==> !used[j].executor
  }

  /** All others, pinner candidates before executor candidates, each kind last come first. */
  ghost predicate Ranking(used: seq<Arrival>, x: nat, order: seq<nat>) {
    && Distinct(order) && (forall j :: j in order <==> 0 <= j < |used| && j != x)
    && (forall a :: 0 <= a < |order| ==> order[a] < |used|)
    && (forall a, b :: 0 <= a < b < |order| ==>
          && (used[order[a]].executor ==> used[order[b]].executor)
          && (used[order[a]].executor == used[order[b]].executor ==> order[b] < order[a]))
  }

  /** The election held over these successes. */
  ghost predicate HeldOver(item: KeyGenItem, n: nat, used: seq<Arrival>, x: nat, order: seq<nat>) {
    && LastToExecute(used, x) && Ranking(used, x, order)
    && item.executor == Some(used[x].who)
    && n <= |order| && item.pinners == At(used, order)[..n]
    && item.cip + item.ce == Reversed(At(used, order)[n..])
  }

  /** Enough among the first m: more than n, one of them to execute. */
  ghost predicate EnoughBy(n: nat, arrivals: seq<Arrival>, m: nat) {
    n + 1 <= m <= |arrivals| && exists i :: 0 <= i < m && arrivals[i].executor
  }

  function RankingOf(used: seq<Arrival>): (order: seq<nat>)
    requires Positions(used, true) != []
  {
    var executors := Positions(used, true);
    Reversed(Positions(used, false)) + Reversed(executors[..|executors| - 1])
  }

  lemma RankingAt(used: seq<Arrival>, a: nat)
    requires Positions(used, true) != [] && a < |RankingOf(used)|
    ensures var pinners, executors, order := Positions(used, false), Positions(used, true), RankingOf(used);
      && |order| == |pinners| + |executors| - 1
      && order[a] == (if a < |pinners| then pinners[|pinners| - 1 - a] else executors[|executors| - 2 - (a - |pinners|)])
      && order[a] < |used| && (used[order[a]].executor <==> |pinners| <= a)
  {
  }

  lemma LastIs(used: seq<Arrival>)
    requires Positions(used, true) != []
    ensures LastToExecute(used, Positions(used, true)[|Positions(used, true)| - 1])
  {
    var last := |Positions(used, true)| - 1;
    forall j | 0 <= j < |used| && used[j].executor ensures j <= Positions(used, true)[last] {
      var i := PositionOf(used, true, j);
      if i != last { PositionsAscend(used, true, i, last); }
    }
  }

  lemma RankingCovers(used: seq<Arrival>, j: nat)
    requires Positions(used, true) != [] && j < |used| && j != Positions(used, true)[|Positions(used, true)| - 1]
    ensures j in RankingOf(used)
  {
    var i := PositionOf(used, used[j].executor, j);
    var a := |Positions(used, false)| - 1 - i + if used[j].executor then |Positions(used, true)| - 1 else 0;
    RankingAt(used, a);
    assert RankingOf(used)[a] == j;
  }

  lemma RankingDescends(used: seq<Arrival>, a: nat, b: nat)
    requires Positions(used, true) != [] && a < b < |RankingOf(used)|
    ensures var order := RankingOf(used);
      && order[a] < |used| && order[b] < |used|
      && (used[order[a]].executor ==> used[order[b]].executor)
      && (used[order[a]].executor == used[order[b]].executor ==> order[b] < order[a])
  {
    RankingAt(used, a);
    RankingAt(used, b);
    var pinners := |Positions(used, false)|;
    if b < pinners {
      PinnersDescend(used, a, b);
    } else if pinners <= a {
      ExecutorsDescend(used, a, b);
    }
  }

  lemma PinnersDescend(used: seq<Arrival>, a: nat, b: nat)
    requires Positions(used, true) != [] && a < b < |Positions(used, false)|
    ensures RankingOf(used)[b] < RankingOf(used)[a]
  {
    var pinners := |Positions(used, false)|;
    PositionsAscend(used, false, pinners - 1 - b, pinners - 1 - a);
  }

  lemma ExecutorsDescend(used: seq<Arrival>, a: nat, b: nat)
    requires Positions(used, true) != [] && |Positions(used, false)| <= a < b < |RankingOf(used)|
    ensures RankingOf(used)[b] < RankingOf(used)[a]
  {
    RankingAt(used, a);
    RankingAt(used, b);
    var last := |RankingOf(used)| - 1;
    PositionsAscend(used, true, last - b, last - a);
  }

  lemma RankingMisses(used: seq<Arrival>, a: nat)
    requires Positions(used, true) != [] && a < |RankingOf(used)|
    ensures RankingOf(used)[a] < |used| && RankingOf(used)[a] != Positions(used, true)[|Positions(used, true)| - 1]
  {
    RankingAt(used, a);
    var pinners, executors := |Positions(used, false)|, |Positions(used, true)|;
    if pinners <= a { PositionsAscend(used, true, executors - 2 - (a - pinners), executors - 1); }
  }

  lemma RankingIs(used: seq<Arrival>)
    requires Positions(used, true) != []
    ensures Ranking(used, Positions(used, true)[|Positions(used, true)| - 1], RankingOf(used))
  {
    var order, x := RankingOf(used), Positions(used, true)[|Positions(used, true)| - 1];
    forall a | 0 <= a < |order| ensures order[a] < |used| && order[a] != x { RankingMisses(used, a); }
    forall a, b | 0 <= a < b < |order|
      ensures order[a] < |used| && order[b] < |used|
        && (used[order[a]].executor ==> used[order[b]].executor)
        && (used[order[a]].executor == used[order[b]].executor ==> order[b] < order[a])
    {
      RankingDescends(used, a, b);
    }
    forall j | 0 <= j < |used| && j != x ensures j in order { RankingCovers(used, j); }
  }

  // ---------------------------------------------------------------- the election

  /** The ranked candidates are the pinner candidates last come first, then the executor
      candidates without the last, last come first. */
  lemma RankedCandidates(used: seq<Arrival>)
    requires Positions(used, true) != []
    ensures forall a :: 0 <= a < |RankingOf(used)| ==> RankingOf(used)[a] < |used|
    ensures Candidates(used, true) != []
    ensures var ce := Candidates(used, true);
      At(used, RankingOf(used)) == Reversed(Candidates(used, false)) + Reversed(ce[..|ce| - 1])
  {
    CandidatesAt(used, true);
    CandidatesAt(used, false);
    var pinners, executors := Positions(used, false), Positions(used, true);
    AtReversed(used, pinners);
    AtReversed(used, executors[..|executors| - 1]);
    var ce := Candidates(used, true);
    assert At(used, executors[..|executors| - 1]) == ce[..|ce| - 1];
    AtConcat(used, Reversed(pinners), Reversed(executors[..|executors| - 1]));
  }

  lemma AtReversed(arrivals: seq<Arrival>, places: seq<nat>)
    requires forall j :: 0 <= j < |places| ==> places[j] < |arrivals|
    ensures At(arrivals, Reversed(places)) == Reversed(At(arrivals, places))
  {
  }

  lemma AtConcat(arrivals: seq<Arrival>, a: seq<nat>, b: seq<nat>)
    requires forall j :: 0 <= j < |a| ==> a[j] < |arrivals|
    requires forall j :: 0 <= j < |b| ==> b[j] < |arrivals|
    ensures At(arrivals, a + b) == At(arrivals, a) + At(arrivals, b)
  {
  }

  lemma ReversedRest<T>(s: seq<T>, m: nat)
    requires m <= |s|
    ensures Reversed(Reversed(s)[m..]) == s[..|s| - m]
  {
  }

  lemma LoopTakesPinners(n: nat, cip: seq<NodeInfo>)
    requires n <= |cip|
    ensures var none: seq<NodeInfo> := [];
      var r := LoopResult(n, Pool(none, cip, none));
      r.pinners == Reversed(cip)[..n] && r.cip == Reversed(Reversed(cip)[n..]) && r.ce == []
  {
    var none: seq<NodeInfo> := [];
    LoopExact(n, Pool(none, cip, none));
    ReversedRest(cip, n);
    assert none + Reversed(cip)[..n] == Reversed(cip)[..n];
  }

  lemma WholeSlice<T>(s: seq<T>, m: nat)
    requires m == |s|
    ensures s[..m] == s && [] + s == s
  {
  }

  lemma LoopTakesAll(cip: seq<NodeInfo>, ce: seq<NodeInfo>)
    requires ce != []
    ensures var none: seq<NodeInfo> := [];
      var r := LoopResult(|cip| + |ce|, Pool(none, cip, ce));
      r.pinners == Reversed(cip) + Reversed(ce) && r.cip == [] && r.ce == []
  {
    var none: seq<NodeInfo> := [];
    LoopExact(|cip| + |ce|, Pool(none, cip, ce));
    WholeSlice(Reversed(ce), |ce|);
    WholeSlice(Reversed(cip), |cip|);
    assert |LoopResult(|cip| + |ce|, Pool(none, cip, ce)).ce| == 0;
  }

  /** The loop over pinner candidates and the other executor candidates, when there are just
      n of them or no executor candidate is among them. */
  lemma LoopTakes(n: nat, cip: seq<NodeInfo>, ce: seq<NodeInfo>)
    requires n <= |cip| + |ce| && (ce == [] || n == |cip| + |ce|)
    ensures var r, ranked := LoopResult(n, Pool([], cip, ce)), Reversed(cip) + Reversed(ce);
      r.pinners == ranked[..n] && r.cip + r.ce == Reversed(ranked[n..])
  {
    var none: seq<NodeInfo> := [];
    if ce == [] {
      assert Reversed(cip) + Reversed(ce) == Reversed(cip);
      LoopTakesPinners(n, cip);
    } else {
      LoopTakesAll(cip, ce);
      var ranked := Reversed(cip) + Reversed(ce);
      assert ranked[..n] == ranked && Reversed(ranked[n..]) == none;
    }
  }

  lemma RankingSize(used: seq<Arrival>)
    requires Positions(used, true) != []
    ensures |RankingOf(used)| == |used| - 1
  {
    CandidatesAt(used, true);
    CandidatesAt(used, false);
    CandidatesCount(used);
  }

  /** Electing over a decisive sequence of successes: the last executor candidate executes,
      the first n of the ranking pin, and the rest is left over as it was. */
  lemma ElectHolds(item: KeyGenItem, used: seq<Arrival>) returns (x: nat, order: seq<nat>)
    requires JustInvited(item) && Ripe(item.info.exec.n, used) && !Ripe(item.info.exec.n, used[..|used| - 1])
    ensures var ready := Collected(item, used);
      ready.ce != [] && item.info.exec.n < PoolOf(ready).Total() && HeldOver(Elect(ready), item.info.exec.n, used, x, order)
  {
    var n := item.info.exec.n;
    var ready := Collected(item, used);
    DecisiveElectsExactly(item, used);
    CandidatesAt(used, true);
    x, order := Positions(used, true)[|Positions(used, true)| - 1], RankingOf(used);
    LastIs(used);
    RankingIs(used);
    RankedCandidates(used);
    RankingSize(used);
    CandidatesCount(used);
    LoopTakes(n, ready.cip, ready.ce[..|ready.ce| - 1]);
  }

  lemma EnoughIsRipe(n: nat, arrivals: seq<Arrival>, m: nat)
    requires m <= |arrivals|
    ensures EnoughBy(n, arrivals, m) <==> Ripe(n, arrivals[..m])
  {
    var used := arrivals[..m];
    CandidatesAt(used, true);
    if Ripe(n, used) {
      var place := Positions(used, true)[0];
      assert used[place] == arrivals[place];
    }
    if EnoughBy(n, arrivals, m) {
      var i :| 0 <= i < m && arrivals[i].executor;
      assert used[i].executor;
      var place := PositionOf(used, true, i);
    }
  }

  /** The request for an election. */
  ghost predicate RequestFor(item: KeyGenItem, used: seq<Arrival>, x: nat, order: seq<nat>, out: seq<KeyGenEvent>) {
    && x < |used| && (forall a :: 0 <= a < |order| ==> order[a] < |used|) && item.info.exec.n <= |order|
    && out == [ExecutionRequestMsg(used[x].who.peer,
                 ExecutionRequest(item.info.taskId, At(used, order)[..item.info.exec.n], item.info.exec.k,
                                  item.info.exec.taskType, item.p1))]
  }

  lemma RipeHolds(item: KeyGenItem, arrivals: seq<Arrival>) returns (m: nat, x: nat, order: seq<nat>)
    requires JustInvited(item) && Ripe(item.info.exec.n, arrivals)
    ensures 0 < m <= |arrivals| && Ripe(item.info.exec.n, arrivals[..m]) && !Ripe(item.info.exec.n, arrivals[..m - 1])
    ensures RunSpec(item, arrivals).Done? && HeldOver(RunSpec(item, arrivals).item, item.info.exec.n, arrivals[..m], x, order)
    ensures RunSpec(item, arrivals).item.state == SentToExecutor
    ensures RequestFor(item, arrivals[..m], x, order, RunSpec(item, arrivals).out)
  {
    m := Decisive(item.info.exec.n, arrivals);
    var used := arrivals[..m];
    assert used[..|used| - 1] == arrivals[..m - 1];
    x, order := ElectHolds(item, used);
  }

  /** The first m are just enough; they are elected from, and one request is sent. */
  ghost predicate ElectedBy(item: KeyGenItem, arrivals: seq<Arrival>, r: Outcome, m: nat, x: nat, order: seq<nat>) {
    var n := item.info.exec.n;
    && EnoughBy(n, arrivals, m) && 0 < m && !EnoughBy(n, arrivals, m - 1)
    && r.Done? && r.item.state == SentToExecutor && HeldOver(r.item, n, arrivals[..m], x, order)
    && RequestFor(item, arrivals[..m], x, order, r.out)
  }

  lemma RipeElected(item: KeyGenItem, arrivals: seq<Arrival>) returns (m: nat, x: nat, order: seq<nat>)
    requires JustInvited(item) && Ripe(item.info.exec.n, arrivals)
    ensures ElectedBy(item, arrivals, RunSpec(item, arrivals), m, x, order)
  {
    m, x, order := RipeHolds(item, arrivals);
    EnoughIsRipe(item.info.exec.n, arrivals, m);
    EnoughIsRipe(item.info.exec.n, arrivals, m - 1);
  }

  lemma AllIsRipe(n: nat, arrivals: seq<Arrival>)
    ensures EnoughBy(n, arrivals, |arrivals|) <==> Ripe(n, arrivals)
  {
    EnoughIsRipe(n, arrivals, |arrivals|);
    assert arrivals[..|arrivals|] == arrivals;
  }

  lemma AllWait(item: KeyGenItem, arrivals: seq<Arrival>)
    requires JustInvited(item) && !Ripe(item.info.exec.n, arrivals) && RunSpec(item, arrivals).Done?
    ensures var r := RunSpec(item, arrivals);
      && r.out == [] && r.item.state == InvitedCandidates && r.item.executor == None && r.item.pinners == []
      && r.item.ce == At(arrivals, Positions(arrivals, true))
      && r.item.cip == At(arrivals, Positions(arrivals, false))
  {
    CandidatesAt(arrivals, true);
    CandidatesAt(arrivals, false);
  }

  /** Every run of successes that ends, told by arrival. As long as there are not more than n
      with one to execute among them, all wait in the order they came, and nothing is sent.
      Otherwise the first m that are enough are elected from: the last of them that would
      execute becomes executor, the others pin in the order of their ranking, exactly n of
      them, and the rest is left over; one request is sent, to that executor, with those
      pinners and the task's own numbers, key type and first public key. */
  lemma ElectionByArrival(item: KeyGenItem, arrivals: seq<Arrival>)
    requires JustInvited(item) && Run(item, arrivals).Done?
    ensures var r := Run(item, arrivals);
      if EnoughBy(item.info.exec.n, arrivals, |arrivals|) then
        exists m, x, order :: ElectedBy(item, arrivals, r, m, x, order)
      else
        && r.out == [] && r.item.state == InvitedCandidates && r.item.executor == None && r.item.pinners == []
        && r.item.ce == At(arrivals, Positions(arrivals, true))
        && r.item.cip == At(arrivals, Positions(arrivals, false))
  {
    RunExact(item, arrivals);
    AllIsRipe(item.info.exec.n, arrivals);
    if Ripe(item.info.exec.n, arrivals) {
      var m, x, order := RipeElected(item, arrivals);
    } else {
      AllWait(item, arrivals);
    }
  }
}
