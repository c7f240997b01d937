/** The delegator's key generation item as the object that the handlers load, change in
    place and save. Every method is tied to the function that specifies it. */
module DelegatorKeyGenStoreItem {
  import opened Types
  import opened SymbolicCrypto
  import opened KeyGenTypes
  import opened ElectionLoop
  import opened KeyGenElection
  import opened DelegatorKeyGen

  class StoreItem {
    var info: TaskInfo
    var state: KeyGenState
    var nonce: Data
    var executor: Option<NodeInfo>
    var initialPinners: seq<NodeInfo>
    var p1: Data
    var p2: Option<Data>
    var account: Option<Data>
    var responses: map<Id, Option<nat>>
    var candidateExecutors: seq<NodeInfo>
    var candidateInitialPinners: seq<NodeInfo>

    /** The value that is stored for this item. */
    function View(): KeyGenItem
      reads this
    {
      KeyGenItem(info, state, nonce, executor, initialPinners, p1, p2, account, responses,
                 candidateExecutors, candidateInitialPinners)
    }

    /** `get`: a fresh copy of what is stored. */
    constructor Loaded(item: KeyGenItem)
      ensures View() == item
    {
      info, state, nonce := item.info, item.state, item.nonce;
      executor, initialPinners := item.executor, item.pinners;
      p1, p2, account := item.p1, item.p2, item.account;
      responses := item.responses;
      candidateExecutors, candidateInitialPinners := item.ce, item.cip;
    }

    /** `TaskCandidates::ready`. */
    predicate ReadyToElect()
      reads this
      ensures ReadyToElect() <==> CandidatesReady(View())
    {
      candidateExecutors != []
        && PlusOne(info.exec.n) <= |candidateExecutors| + |candidateInitialPinners|
    }

    /** `ExecutorRequestConstructor::ready`. */
    predicate ReadyToRequest()
      reads this
      ensures ReadyToRequest() <==> RequestReady(View())
    {
      !executor.None? && |initialPinners| == info.exec.n
    }

    method InsertExecutor(who: NodeInfo)
      modifies this
      ensures View() == Inserted(old(View()), who, true)
    {
      candidateExecutors := candidateExecutors + [who];
    }

    method InsertInitialPinner(who: NodeInfo)
      modifies this
      ensures View() == Inserted(old(View()), who, false)
    {
      candidateInitialPinners := candidateInitialPinners + [who];
    }

    method SelectExecutor() returns (ok: bool)
      modifies this
      ensures ok <==> old(candidateExecutors) != []
      ensures View() == if ok then ExecutorPopped(old(View())) else old(View())
      ensures ok ==> executor == Some(old(candidateExecutors)[|old(candidateExecutors)| - 1])
      ensures ok ==> candidateExecutors == old(candidateExecutors)[..|old(candidateExecutors)| - 1]
    {
      ok := candidateExecutors != [];
      if ok {
        var last := |candidateExecutors| - 1;
        executor := Some(candidateExecutors[last]);
        candidateExecutors := candidateExecutors[..last];
      }
    }

    ghost function PoolNow(): Pool<NodeInfo>
      reads this
    {
      Pool(initialPinners, candidateInitialPinners, candidateExecutors)
    }

    /** The loop, or the finding that it never ends: once both stacks are empty and pinners
        are missing, an iteration changes nothing any more. */
    method SelectInitialPinners() returns (ends: bool)
      modifies `initialPinners, `candidateInitialPinners, `candidateExecutors
      ensures ends <==> info.exec.n <= old(PoolOf(View())).Total()
      ensures ends ==> View() == WithPool(old(View()), LoopResult(info.exec.n, old(PoolOf(View()))))
      ensures !ends ==> Guard(info.exec.n, PoolNow()) && Iteration(PoolNow()) == PoolNow()
    {
      ghost var start, n := PoolNow(), info.exec.n;
      while |initialPinners| < info.exec.n || (candidateInitialPinners != [] && candidateExecutors != [])
        invariant PoolNow().Total() == start.Total()
        invariant n <= start.Total() ==> LoopResult(n, PoolNow()) == LoopResult(n, start)
        decreases |candidateInitialPinners| + |candidateExecutors|
      {
        ghost var before := PoolNow();
        Onward(n, start, before);
        if candidateInitialPinners != [] {
          var p := candidateInitialPinners[|candidateInitialPinners| - 1];
          candidateInitialPinners := candidateInitialPinners[..|candidateInitialPinners| - 1];
          initialPinners := initialPinners + [p];
          assert PoolNow() == Iteration(before);
          continue;
        }
        if candidateExecutors == [] { return false; }
        var e := candidateExecutors[|candidateExecutors| - 1];
        candidateExecutors := candidateExecutors[..|candidateExecutors| - 1];
        initialPinners := initialPinners + [e];
        assert PoolNow() == Iteration(before);
      }
      ends := true;
    }

    /** `elect`: an error without executor candidates; otherwise it ends or it does not. */
    method ElectAll() returns (ok: bool, ends: bool)
      modifies this
      ensures info == old(info) && (ok <==> old(candidateExecutors) != [])
      ensures ends <==> (!ok || old(info.exec.n < PoolOf(View()).Total()))
      ensures !ok ==> View() == old(View())
      ensures ok && ends ==> View() == old(Elect(View()))
    {
      ends := true;
      ok := SelectExecutor();
      if ok { ends := SelectInitialPinners(); }
    }

    /** `generate`. */
    method Generate() returns (request: ExecutionRequest)
      ensures request == RequestOf(View())
    {
      var pinners: seq<NodeInfo> := [];
      for i := 0 to |initialPinners|
        invariant pinners == initialPinners[..i]
      {
        pinners := pinners + [NodeInfo(initialPinners[i].peer, initialPinners[i].pub)];
      }
      request := ExecutionRequest(info.taskId, pinners, info.exec.k, info.exec.taskType, p1);
    }

    /** Walks the response map in whatever order it has. */
    method IsAllInitialPinnersReady(order: seq<Id>) returns (ready: bool)
      requires IsOrderOf(order, responses.Keys)
      ensures ready <==> AllReady(responses)
    {
      for i := 0 to |order|
        invariant forall j :: 0 <= j < i ==> responses[order[j]].Some?
      {
        assert order[i] in Elements(order);
        if responses[order[i]].None? { return false; }
      }
      forall p | p in responses ensures responses[p].Some? {
        assert p in Elements(order);
      }
      ready := true;
    }

    /** The conversion into the result for layer 1. */
    method IntoResult(order: seq<Id>) returns (report: Option<Report>)
      requires IsOrderOf(order, responses.Keys)
      ensures report == ReportOf(View(), order)
    {
      if account.None? || p2.None? { return None; }
      var ids: seq<nat> := [];
      for i := 0 to |order|
        invariant ids == Known(order[..i], responses)
      {
        assert order[i] in Elements(order);
        assert order[..i + 1][..i] == order[..i];
        if responses[order[i]].Some? { ids := ids + [responses[order[i]].value]; }
      }
      assert order[..|order|] == order;
      report := Some(Report(info.taskId, nonce, account.value, p2.value, ids));
    }
  }
}
