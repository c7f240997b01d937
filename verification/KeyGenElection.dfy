/** The election part of the delegator's key generation item, as functions on the stored
    value, and what it does over every run of remote attestation successes. */
module KeyGenElection {
  import opened Types
  import opened SymbolicCrypto
  import opened KeyGenTypes
  import opened ElectionLoop

  /** `n + 1` in u8, which wraps in a release build. */
  function PlusOne(n: Byte): Byte { if n == 255 then 0 else n + 1 }

  /** `TaskCandidates::ready`. */
  predicate CandidatesReady(item: KeyGenItem) {
    item.ce != [] && PlusOne(item.info.exec.n) <= |item.ce| + |item.cip|
  }

  /** `ExecutorRequestConstructor::ready`. */
  predicate RequestReady(item: KeyGenItem) {
    item.executor.Some? && |item.pinners| == item.info.exec.n
  }

  /** `generate`. */
  function RequestOf(item: KeyGenItem): ExecutionRequest {
    ExecutionRequest(item.info.taskId, item.pinners, item.info.exec.k, item.info.exec.taskType, item.p1)
  }

  function Inserted(item: KeyGenItem, who: NodeInfo, executor: bool): KeyGenItem {
    if executor then item.(ce := item.ce + [who]) else item.(cip := item.cip + [who])
  }

  function ExecutorPopped(item: KeyGenItem): KeyGenItem
    requires item.ce != []
  {
    item.(executor := Some(item.ce[|item.ce| - 1]), ce := item.ce[..|item.ce| - 1])
  }

  function PoolOf(item: KeyGenItem): Pool<NodeInfo> {
    Pool(item.pinners, item.cip, item.ce)
  }

  function WithPool(item: KeyGenItem, p: Pool<NodeInfo>): KeyGenItem {
    item.(pinners := p.pinners, cip := p.cip, ce := p.ce)
  }

  /** `elect`, where it comes to an end. */
  function Elect(item: KeyGenItem): KeyGenItem
    requires item.ce != [] && item.info.exec.n < PoolOf(item).Total()
  {
    var popped := ExecutorPopped(item);
    WithPool(popped, LoopResult(item.info.exec.n, PoolOf(popped)))
  }

  /** `try_send_to_executor`. */
  function TrySendToExecutor(item: KeyGenItem): Outcome {
    if !CandidatesReady(item) then Done(item, [])
    else if PoolOf(item).Total() <= item.info.exec.n then Diverges(item)
    else
      var elected := Elect(item);
      if RequestReady(elected) then
        Done(elected.(state := SentToExecutor),
             [ExecutionRequestMsg(elected.executor.value.peer, RequestOf(elected))])
      else
        Failed(item)
  }

  /** `on_executor_ra_success` and `on_initial_pinner_ra_success`. */
  function OnRaSuccess(item: KeyGenItem, who: NodeInfo, executor: bool): Outcome {
    if item.state != InvitedCandidates then Done(item, [])
    else TrySendToExecutor(Inserted(item, who, executor))
  }

  // ---------------------------------------------------------------- runs

  datatype Arrival = Arrival(who: NodeInfo, executor: bool)

  /** The handler run on one success after another, until it fails or loops. */
  function Run(item: KeyGenItem, arrivals: seq<Arrival>): Outcome {
    if arrivals == [] then Done(item, [])
    else
      var a := arrivals[|arrivals| - 1];
      match Run(item, arrivals[..|arrivals| - 1])
      case Done(before, out) =>
        (match OnRaSuccess(before, a.who, a.executor)
         case Done(after, more) => Done(after, out + more)
         case other => other)
      case other => other
  }

  function Candidates(arrivals: seq<Arrival>, executor: bool): (r: seq<NodeInfo>)
    ensures |r| <= |arrivals|
  {
    if arrivals == [] then []
    else
      var a := arrivals[|arrivals| - 1];
      var before := Candidates(arrivals[..|arrivals| - 1], executor);
      if a.executor == executor then before + [a.who] else before
  }

  /** Enough successes to elect: n + 1 in all, an executor candidate among them. */
  predicate Ripe(n: nat, arrivals: seq<Arrival>) {
    Candidates(arrivals, true) != [] && n + 1 <= |arrivals|
  }

  /** The shortest ripe prefix of a ripe sequence. */
  function Decisive(n: nat, arrivals: seq<Arrival>): (m: nat)
    requires Ripe(n, arrivals)
    ensures 0 < m <= |arrivals| && Ripe(n, arrivals[..m]) && !Ripe(n, arrivals[..m - 1])
  {
    var init := arrivals[..|arrivals| - 1];
    if Ripe(n, init) then
      assert forall m :: 0 <= m <= |init| ==> init[..m] == arrivals[..m];
      Decisive(n, init)
    else
      assert arrivals[..|arrivals|] == arrivals;
      |arrivals|
  }

  function Collected(item: KeyGenItem, arrivals: seq<Arrival>): KeyGenItem {
    item.(ce := Candidates(arrivals, true), cip := Candidates(arrivals, false))
  }

  /** A task that has just invited its candidates. */
  predicate JustInvited(item: KeyGenItem) {
    && item.state == InvitedCandidates && item.executor == None
    && item.pinners == [] && item.ce == [] && item.cip == []
    && 1 <= item.info.exec.n
  }

  /** What a run should leave: every candidate collected while there are not enough of
      them; afterwards the election held over the shortest sufficient prefix, its one
      request, and nothing of the successes that came later. */
  function RunSpec(item: KeyGenItem, arrivals: seq<Arrival>): Outcome {
    var n := item.info.exec.n;
    if !Ripe(n, arrivals) then Done(Collected(item, arrivals), [])
    else
      var m := Decisive(n, arrivals);
      var ready := Collected(item, arrivals[..m]);
      if ready.ce == [] || PoolOf(ready).Total() <= n then Diverges(ready)
      else
        var elected := Elect(ready);
        Done(elected.(state := SentToExecutor),
             [ExecutionRequestMsg(elected.executor.value.peer, RequestOf(elected))])
  }

  /** The success that starts an election too early: with n = 255, where n + 1 wraps to 0,
      the first executor candidate does if it comes before n others. */
  function Premature(n: nat, arrivals: seq<Arrival>): (m: Option<nat>)
    ensures m.Some? ==> 0 < m.value <= |arrivals| && m.value <= n && n == 255
  {
    if arrivals == [] then None
    else
      var earlier := Premature(n, arrivals[..|arrivals| - 1]);
      if earlier.Some? then earlier
      else if n == 255 && Candidates(arrivals, true) != [] && |arrivals| <= n then Some(|arrivals|)
      else None
  }

  /** What a run of any task should leave. */
  function FullSpec(item: KeyGenItem, arrivals: seq<Arrival>): Outcome {
    match Premature(item.info.exec.n, arrivals)
    case Some(m) => Diverges(Collected(item, arrivals[..m]))
    case None => RunSpec(item, arrivals)
  }

  lemma {:induction false} CandidatesCount(arrivals: seq<Arrival>)
    ensures |Candidates(arrivals, true)| + |Candidates(arrivals, false)| == |arrivals|
  {
    if arrivals != [] { CandidatesCount(arrivals[..|arrivals| - 1]); }
  }

  function Who(arrivals: seq<Arrival>): seq<NodeInfo> {
    if arrivals == [] then [] else Who(arrivals[..|arrivals| - 1]) + [arrivals[|arrivals| - 1].who]
  }

  lemma {:induction false} CandidatesAre(arrivals: seq<Arrival>)
    ensures multiset(Candidates(arrivals, true)) + multiset(Candidates(arrivals, false)) == multiset(Who(arrivals))
  {
    if arrivals != [] { CandidatesAre(arrivals[..|arrivals| - 1]); }
  }

  /** Candidates that are decisive elect exactly n: their number is n + 1, or the
      decisive success brought the only executor candidate. */
  lemma DecisiveElectsExactly(item: KeyGenItem, arrivals: seq<Arrival>)
    requires JustInvited(item) && Ripe(item.info.exec.n, arrivals)
    requires !Ripe(item.info.exec.n, arrivals[..|arrivals| - 1])
    ensures var ready := Collected(item, arrivals);
      && (|arrivals| == item.info.exec.n + 1 || |ready.ce| == 1)
      && ready.ce != [] && PoolOf(ready).Total() == |arrivals|
      && RequestReady(Elect(ready))
  {
    var n := item.info.exec.n;
    var ready := Collected(item, arrivals);
    CandidatesCount(arrivals);
    var popped := ExecutorPopped(ready);
    ElectedCount(n, popped.cip, popped.ce);
  }

  /** Once ripe, ripe for good; and the decisive prefix does not move. */
  lemma DecisiveStable(n: nat, arrivals: seq<Arrival>)
    requires 0 < |arrivals| && Ripe(n, arrivals[..|arrivals| - 1])
    ensures Ripe(n, arrivals)
    ensures Decisive(n, arrivals) == Decisive(n, arrivals[..|arrivals| - 1])
    ensures arrivals[..|arrivals| - 1][..Decisive(n, arrivals)] == arrivals[..Decisive(n, arrivals)]
  {
  }

  /** The item with one more candidate in it, and when it is ready. */
  lemma OneMoreCollected(item: KeyGenItem, arrivals: seq<Arrival>)
    requires JustInvited(item) && 0 < |arrivals|
    ensures var a := arrivals[|arrivals| - 1];
      Inserted(Collected(item, arrivals[..|arrivals| - 1]), a.who, a.executor) == Collected(item, arrivals)
    ensures PoolOf(Collected(item, arrivals)).Total() == |arrivals|
    ensures CandidatesReady(Collected(item, arrivals)) <==>
      Candidates(arrivals, true) != [] && PlusOne(item.info.exec.n) <= |arrivals|
  {
    CandidatesCount(arrivals);
  }

  lemma ReadyIsRipe(item: KeyGenItem, arrivals: seq<Arrival>)
    requires JustInvited(item) && 0 < |arrivals| && Premature(item.info.exec.n, arrivals) == None
    requires !Ripe(item.info.exec.n, arrivals[..|arrivals| - 1])
    ensures CandidatesReady(Collected(item, arrivals)) <==> Ripe(item.info.exec.n, arrivals)
  {
    OneMoreCollected(item, arrivals);
  }

  /** The next success while candidates are still being collected. */
  lemma CollectStep(item: KeyGenItem, arrivals: seq<Arrival>)
    requires JustInvited(item) && Premature(item.info.exec.n, arrivals) == None
    requires 0 < |arrivals| && !Ripe(item.info.exec.n, arrivals[..|arrivals| - 1])
    ensures var a := arrivals[|arrivals| - 1];
      OnRaSuccess(Collected(item, arrivals[..|arrivals| - 1]), a.who, a.executor) == RunSpec(item, arrivals)
    ensures RunSpec(item, arrivals).Done?
  {
    var n := item.info.exec.n;
    OneMoreCollected(item, arrivals);
    ReadyIsRipe(item, arrivals);
    if Ripe(n, arrivals) {
      assert arrivals[..|arrivals|] == arrivals && Decisive(n, arrivals) == |arrivals|;
      DecisiveElectsExactly(item, arrivals);
    }
  }

  /** The success that comes too early: one executor candidate, too few others. */
  lemma PrematureStep(item: KeyGenItem, arrivals: seq<Arrival>)
    requires JustInvited(item) && 0 < |arrivals|
    requires Premature(item.info.exec.n, arrivals[..|arrivals| - 1]) == None
    requires Premature(item.info.exec.n, arrivals) == Some(|arrivals|)
    ensures !Ripe(item.info.exec.n, arrivals[..|arrivals| - 1])
    ensures var a := arrivals[|arrivals| - 1];
      OnRaSuccess(Collected(item, arrivals[..|arrivals| - 1]), a.who, a.executor) == Diverges(Collected(item, arrivals))
  {
    OneMoreCollected(item, arrivals);
  }

  lemma ElectedStays(item: KeyGenItem, arrivals: seq<Arrival>)
    requires JustInvited(item)
    requires 0 < |arrivals| && Ripe(item.info.exec.n, arrivals[..|arrivals| - 1])
    requires RunSpec(item, arrivals[..|arrivals| - 1]).Done?
    ensures RunSpec(item, arrivals) == RunSpec(item, arrivals[..|arrivals| - 1])
    ensures RunSpec(item, arrivals).item.state == SentToExecutor
  {
    DecisiveStable(item.info.exec.n, arrivals);
  }

  /** Every run of successes, in any order and of any length, of any task, does exactly
      what is specified. */
  lemma {:induction false} RunExact(item: KeyGenItem, arrivals: seq<Arrival>)
    requires JustInvited(item)
    ensures Run(item, arrivals) == FullSpec(item, arrivals)
    ensures Run(item, arrivals).Done? <==> Premature(item.info.exec.n, arrivals) == None
  {
    if arrivals == [] {
      assert Collected(item, arrivals) == item;
    } else {
      var n, init := item.info.exec.n, arrivals[..|arrivals| - 1];
      RunExact(item, init);
      if Premature(n, init).Some? {
        var m := Premature(n, init).value;
        assert init[..m] == arrivals[..m];
      } else if Premature(n, arrivals).Some? {
        PrematureStep(item, arrivals);
        assert arrivals[..|arrivals|] == arrivals;
      } else {
        RunOn(item, arrivals);
      }
    }
  }

  lemma RunStep(item: KeyGenItem, arrivals: seq<Arrival>, before: Outcome, after: Outcome)
    requires 0 < |arrivals| && Run(item, arrivals[..|arrivals| - 1]) == before && before.Done? && after.Done?
    requires var a := arrivals[|arrivals| - 1]; OnRaSuccess(before.item, a.who, a.executor) == after
    ensures Run(item, arrivals) == Done(after.item, before.out + after.out)
  {
  }

  lemma NothingAdded(o: Outcome)
    requires o.Done?
    ensures Done(o.item, o.out + []) == o && Done(o.item, [] + o.out) == o
  {
  }

  lemma WaitingSends(item: KeyGenItem, arrivals: seq<Arrival>)
    requires !Ripe(item.info.exec.n, arrivals)
    ensures RunSpec(item, arrivals) == Done(Collected(item, arrivals), [])
  {
  }

  /** After the election nothing is looked at any more. */
  lemma ElectedIgnores(item: KeyGenItem, who: NodeInfo, executor: bool)
    requires item.state == SentToExecutor
    ensures OnRaSuccess(item, who, executor) == Done(item, [])
  {
  }

  lemma RunOn(item: KeyGenItem, arrivals: seq<Arrival>)
    requires JustInvited(item) && 0 < |arrivals| && Premature(item.info.exec.n, arrivals) == None
    requires Run(item, arrivals[..|arrivals| - 1]) == RunSpec(item, arrivals[..|arrivals| - 1])
    requires RunSpec(item, arrivals[..|arrivals| - 1]).Done?
    ensures Run(item, arrivals) == RunSpec(item, arrivals) && RunSpec(item, arrivals).Done?
  {
    var init, a := arrivals[..|arrivals| - 1], arrivals[|arrivals| - 1];
    var before := RunSpec(item, init);
    if Ripe(item.info.exec.n, init) {
      ElectedStays(item, arrivals);
      ElectedIgnores(before.item, a.who, a.executor);
      RunStep(item, arrivals, before, Done(before.item, []));
      NothingAdded(before);
    } else {
      WaitingSends(item, init);
      CollectStep(item, arrivals);
      RunStep(item, arrivals, before, RunSpec(item, arrivals));
      NothingAdded(RunSpec(item, arrivals));
    }
  }

  /** Electing loses no candidate and invents none. */
  lemma ElectConserves(item: KeyGenItem)
    requires item.ce != [] && item.pinners == [] && item.info.exec.n < PoolOf(item).Total()
    ensures var r := Elect(item);
      && r.executor.Some?
      && multiset{r.executor.value} + multiset(r.pinners) + multiset(r.cip) + multiset(r.ce)
           == multiset(item.ce) + multiset(item.cip)
  {
    assert item.ce == item.ce[..|item.ce| - 1] + [item.ce[|item.ce| - 1]];
    var popped := ExecutorPopped(item);
    LoopConserves(item.info.exec.n, PoolOf(popped));
    assert multiset(item.ce) == multiset(popped.ce) + multiset{popped.executor.value};
    assert multiset(popped.pinners) == multiset{};
    var p := LoopResult(item.info.exec.n, PoolOf(popped));
    assert multiset(p.pinners) + multiset(p.cip) + multiset(p.ce) == multiset(popped.cip) + multiset(popped.ce);
    var r := Elect(item);
    assert r.pinners == p.pinners && r.cip == p.cip && r.ce == p.ce && r.executor == popped.executor;
    forall x ensures (multiset{r.executor.value} + multiset(r.pinners) + multiset(r.cip) + multiset(r.ce))[x]
                  == (multiset(item.ce) + multiset(item.cip))[x]
    {
      var left := multiset(p.pinners) + multiset(p.cip) + multiset(p.ce);
      assert left[x] == (multiset(popped.cip) + multiset(popped.ce))[x];
    }
  }

  lemma ElectMembers(item: KeyGenItem)
    requires item.ce != [] && item.pinners == [] && item.info.exec.n < PoolOf(item).Total()
    ensures var r := Elect(item);
      && r.executor.Some? && r.executor.value in item.ce
      && (forall w :: w in r.ce ==> w in item.ce) && (forall w :: w in r.cip ==> w in item.cip)
      && (forall w :: w in r.pinners ==> w in item.cip || w in item.ce)
  {
    LoopMembers(item.info.exec.n, PoolOf(ExecutorPopped(item)));
    InPrefix(item.ce, |item.ce| - 1);
  }

  /** A task that still collects and is not ready. */
  predicate Collecting(item: KeyGenItem) {
    && item.state == InvitedCandidates && item.executor == None && item.pinners == []
    && 1 <= item.info.exec.n <= 254 && !CandidatesReady(item)
  }

  /** One success: either the item goes on collecting, or it has elected in full. */
  lemma SuccessElectsOrWaits(item: KeyGenItem, who: NodeInfo, executor: bool)
    requires Collecting(item)
    ensures var ready := Inserted(item, who, executor);
      var outcome := OnRaSuccess(item, who, executor);
      && outcome.Done?
      && (if !CandidatesReady(ready) then outcome.item == ready && outcome.out == []
          else
            && ready.ce != [] && item.info.exec.n < PoolOf(ready).Total()
            && outcome.item == Elect(ready).(state := SentToExecutor) && RequestReady(outcome.item)
            && outcome.out == [ExecutionRequestMsg(outcome.item.executor.value.peer, RequestOf(outcome.item))])
  {
    var ready := Inserted(item, who, executor);
    if CandidatesReady(ready) {
      var popped := ExecutorPopped(ready);
      ElectedCount(item.info.exec.n, popped.cip, popped.ce);
    }
  }

  lemma DecisiveConserves(item: KeyGenItem, used: seq<Arrival>)
    requires JustInvited(item) && Ripe(item.info.exec.n, used) && !Ripe(item.info.exec.n, used[..|used| - 1])
    ensures var ready := Collected(item, used);
      && ready.ce != [] && item.info.exec.n < PoolOf(ready).Total() && RequestReady(Elect(ready))
      && multiset{Elect(ready).executor.value} + multiset(Elect(ready).pinners)
           + multiset(Elect(ready).cip) + multiset(Elect(ready).ce) == multiset(Who(used))
  {
    DecisiveElectsExactly(item, used);
    CandidatesAre(used);
    ElectConserves(Collected(item, used));
  }

  /** Held over these successes the election has an executor and exactly n pinners, and
      they and the leftovers are the candidates there were, each as often as it came. */
  ghost predicate ElectedFrom(item: KeyGenItem, used: seq<Arrival>) {
    && item.state == SentToExecutor && item.executor.Some? && |item.pinners| == item.info.exec.n
    && multiset{item.executor.value} + multiset(item.pinners) + multiset(item.cip) + multiset(item.ce)
         == multiset(Who(used))
  }

  lemma RipeConserves(item: KeyGenItem, arrivals: seq<Arrival>)
    requires JustInvited(item) && Ripe(item.info.exec.n, arrivals)
    ensures RunSpec(item, arrivals).Done?
    ensures ElectedFrom(RunSpec(item, arrivals).item, arrivals[..Decisive(item.info.exec.n, arrivals)])
  {
    var n := item.info.exec.n;
    var used := arrivals[..Decisive(n, arrivals)];
    assert used[..|used| - 1] == arrivals[..Decisive(n, arrivals) - 1];
    DecisiveConserves(item, used);
  }

  /** Read off: unless an election is started too early, every run ends; while the item
      still collects it is not ready, so nothing is ever waiting to be elected; and when it
      has been elected, it is from the candidates of the decisive prefix. */
  lemma ElectionConserves(item: KeyGenItem, arrivals: seq<Arrival>)
    requires JustInvited(item)
    ensures Run(item, arrivals).Done? <==> Premature(item.info.exec.n, arrivals) == None
    ensures Run(item, arrivals).Done? ==>
      var r := Run(item, arrivals).item;
      if Ripe(item.info.exec.n, arrivals) then
        ElectedFrom(r, arrivals[..Decisive(item.info.exec.n, arrivals)])
      else
        r.state == InvitedCandidates && !CandidatesReady(r)
  {
    RunExact(item, arrivals);
    if Ripe(item.info.exec.n, arrivals) { RipeConserves(item, arrivals); } else { CandidatesCount(arrivals); }
  }

  ghost predicate NeverFails(item: KeyGenItem) {
    forall arrivals :: Run(item, arrivals).Done?
  }

  /** The bound on n is exact: of the values that task validation lets through only 255
      breaks the election, and it breaks it at the first executor candidate. */
  lemma ElectionSoundIff(item: KeyGenItem)
    requires JustInvited(item)
    ensures NeverFails(item) <==> item.info.exec.n <= 254
  {
    if item.info.exec.n <= 254 {
      forall arrivals ensures Run(item, arrivals).Done? { RunExact(item, arrivals); }
    } else {
      var a := Arrival(NodeInfo([0], RsaPublic(0)), true);
      var none: seq<Arrival> := [];
      assert [a][..0] == none && Candidates([a], true) == [] + [a.who];
      RunExact(item, [a]);
      assert !Run(item, [a]).Done?;
    }
  }
}
