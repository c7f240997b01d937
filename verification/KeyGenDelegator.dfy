/** The delegator at work: its store of items, the messages it sends and what it tells
    layer 1. A handler loads an item, changes it, saves it and sends. */
module KeyGenDelegator {
  import opened Types
  import opened SymbolicCrypto
  import opened KeyGenTypes
  import opened TaskInfos
  import opened Candidates
  import opened KeyGenElection
  import opened DelegatorKeyGen
  import opened DelegatorKeyGenStoreItem

  /** How a handler ends: normally, with an error, or not at all. */
  datatype Ending = Returned | Refused | Spins

  function EndingOf(o: Outcome): Ending {
    match o
    case Done(_, _) => Returned
    case Failed(_) => Refused
    case Diverges(_) => Spins
  }

  /** What the slice requests to the first i pinners and their places are. */
  ghost predicate Shared(x: ExecutionResponse, taskId: Id, i: nat, out: seq<KeyGenEvent>, places: map<Id, Option<nat>>) {
    i <= |x.pinners| && out == SliceRequests(x, taskId)[..i] && places == Awaiting(x.pinners[..i])
  }

  lemma AwaitOneMore(pinners: seq<PinnerSlice>, i: nat)
    requires i < |pinners|
    ensures Awaiting(pinners[..i + 1]) == Awaiting(pinners[..i])[pinners[i].peer := None]
  {
    assert pinners[..i + 1] == pinners[..i] + [pinners[i]];
  }

  lemma ShareOneMore(x: ExecutionResponse, taskId: Id, i: nat, out: seq<KeyGenEvent>, places: map<Id, Option<nat>>)
    requires Shared(x, taskId, i, out, places) && i < |x.pinners|
    ensures Shared(x, taskId, i + 1, out + [SliceRequests(x, taskId)[i]], places[x.pinners[i].peer := None])
  {
    AwaitOneMore(x.pinners, i);
  }

  lemma PutLast<K, V>(a: map<K, V>, b: map<K, V>, k: K, v: V)
    ensures (a + b)[k := v] == a + b[k := v]
  {
  }

  lemma AllShared(x: ExecutionResponse, taskId: Id, out: seq<KeyGenEvent>, places: map<Id, Option<nat>>)
    requires Shared(x, taskId, |x.pinners|, out, places)
    ensures out == SliceRequests(x, taskId) && places == Awaiting(x.pinners)
  {
    assert x.pinners[..|x.pinners|] == x.pinners;
  }

  class Delegator {
    var items: map<Id, KeyGenItem>
    var outbox: seq<KeyGenEvent>
    var reports: seq<Report>

    /** Items are stored under their own task id. */
    ghost predicate Valid()
      reads this
    {
      forall id :: id in items ==> items[id].info.taskId == id
    }

    constructor ()
      ensures Valid() && items == map[] && outbox == [] && reports == []
    {
      items, outbox, reports := map[], [], [];
    }

    method Save(item: StoreItem)
      modifies `items
      ensures items == old(items)[item.info.taskId := item.View()]
    {
      items := items[item.info.taskId := item.View()];
    }

    method Send(e: KeyGenEvent)
      modifies `outbox
      ensures outbox == old(outbox) + [e]
    {
      outbox := outbox + [e];
    }

    /** `process_key_generation_event`, once this node has become the delegator. Asking
        for the delegates comes between the two saves; the reply is handled later. */
    method ProcessKeyGenerationEvent(e: KeyGenerationEvent, nonce: Data) returns (ok: bool)
      requires Valid()
      modifies this
      ensures Valid() && reports == old(reports)
      ensures ok <==> Started(e, nonce).Some?
      ensures ok ==> items == old(items)[e.taskId := Started(e, nonce).value] && outbox == old(outbox) + [DelegatesReply]
      ensures ok <==> 1 <= e.k % 256 < e.n % 256
      ensures ok ==> e.taskId in items && items[e.taskId].state == InvitedCandidates
      ensures ok ==> items[e.taskId].info == TaskInfo(e.taskId, ExecInfo(e.n % 256, e.k % 256, e.keyType))
      ensures ok ==> items[e.taskId].nonce == nonce && items[e.taskId].p1 == e.p1
      ensures ok ==> items[e.taskId].executor == None && items[e.taskId].pinners == []
      ensures ok ==> items[e.taskId].ce == [] && items[e.taskId].cip == []
      ensures !ok ==> items == old(items) && outbox == old(outbox)
    {
      var info := FromLayer1(e);
      if info.None? { return false; }
      var item := new StoreItem.Loaded(
        KeyGenItem(info.value, Init, nonce, None, [], e.p1, None, None, map[], [], []));
      Save(item);
      Send(DelegatesReply);
      item.state := InvitedCandidates;
      Save(item);
      ok := true;
    }

    /** The reply to `get_delegates`: `invite_candidate_executors`, whose last callback
        invites the initial pinners. */
    method InviteCandidates(info: TaskInfo, delegates: seq<Id>, swarm: seq<Id>)
      requires info.exec.n != 0
      modifies `outbox
      ensures outbox == old(outbox) + OnDelegates(info, delegates, swarm)
    {
      ghost var sent := outbox;
      for i := 0 to |delegates|
        invariant outbox == sent + Profiles(delegates)[..i]
      {
        Send(ProfileReply(delegates[i]));
        assert Profiles(delegates)[..i] + [ProfileReply(delegates[i])] == Profiles(delegates)[..i + 1];
      }
      var peers := InvitedPeers(info.exec.n, info.taskId, swarm, delegates);
      ghost var invitations := PinnerInvitations(info, peers);
      for i := 0 to |peers|
        invariant outbox == sent + Profiles(delegates) + invitations[..i]
      {
        Send(CandidateMsg(peers[i], RequestFor(info, false)));
        assert invitations[..i] + [CandidateMsg(peers[i], RequestFor(info, false))] == invitations[..i + 1];
      }
    }

    /** `try_send_to_executor`, on an item that has just been saved. */
    method TrySendToExecutor(item: StoreItem) returns (r: Ending)
      requires item.info.taskId in items && items[item.info.taskId] == item.View()
      modifies `items, `outbox, item
      ensures var o := KeyGenElection.TrySendToExecutor(old(item.View()));
        && r == EndingOf(o)
        && items == old(items)[old(item.info.taskId) := o.item]
        && outbox == old(outbox) + if o.Done? then o.out else []
    {
      if !item.ReadyToElect() { return Returned; }
      var ok, ends := item.ElectAll();
      if !ends { return Spins; }
      if !ok || !item.ReadyToRequest() { return Refused; }
      var request := item.Generate();
      Send(ExecutionRequestMsg(item.executor.value.peer, request));
      item.state := SentToExecutor;
      Save(item);
      r := Returned;
    }

    /** `on_executor_ra_success`. */
    method OnExecutorRaSuccess(taskId: Id, who: NodeInfo) returns (r: Ending)
      requires Valid()
      modifies this
      ensures Valid() && reports == old(reports)
      ensures taskId !in old(items) ==> r == Refused && items == old(items) && outbox == old(outbox)
      ensures taskId in old(items) ==>
        var o := OnRaSuccess(old(items)[taskId], who, true);
        && r == EndingOf(o)
        && items == old(items)[taskId := o.item]
        && outbox == old(outbox) + if o.Done? then o.out else []
    {
      if taskId !in items { return Refused; }
      var item := new StoreItem.Loaded(items[taskId]);
      if item.state != InvitedCandidates { return Returned; }
      item.InsertExecutor(who);
      Save(item);
      r := TrySendToExecutor(item);
    }

    /** `on_initial_pinner_ra_success`. */
    method OnInitialPinnerRaSuccess(taskId: Id, who: NodeInfo) returns (r: Ending)
      requires Valid()
      modifies this
      ensures Valid() && reports == old(reports)
      ensures taskId !in old(items) ==> r == Refused && items == old(items) && outbox == old(outbox)
      ensures taskId in old(items) ==>
        var o := OnRaSuccess(old(items)[taskId], who, false);
        && r == EndingOf(o)
        && items == old(items)[taskId := o.item]
        && outbox == old(outbox) + if o.Done? then o.out else []
    {
      if taskId !in items { return Refused; }
      var item := new StoreItem.Loaded(items[taskId]);
      if item.state != InvitedCandidates { return Returned; }
      item.InsertInitialPinner(who);
      Save(item);
      r := TrySendToExecutor(item);
    }

    /** The loop of `process_task_execution_response`: one slice to each pinner, and a
        place for its answer. */
    method ShareSlices(item: StoreItem, x: ExecutionResponse)
      modifies `outbox, item`responses
      ensures outbox == old(outbox) + SliceRequests(x, item.info.taskId)
      ensures item.responses == old(item.responses) + Awaiting(x.pinners)
    {
      ghost var sent, places: map<Id, Option<nat>> := [], map[];
      for i := 0 to |x.pinners|
        invariant outbox == old(outbox) + sent && item.responses == old(item.responses) + places
        invariant Shared(x, item.info.taskId, i, sent, places)
      {
        var p := x.pinners[i];
        ShareOneMore(x, item.info.taskId, i, sent, places);
        PutLast(old(item.responses), places, p.peer, None);
        Send(SliceRequestMsg(p.peer, SliceRequest(item.info.taskId, x.p2, p.slice, x.account)));
        item.responses := item.responses[p.peer := None];
        sent, places := sent + [outbox[|outbox| - 1]], places[p.peer := None];
      }
      AllShared(x, item.info.taskId, sent, places);
    }

    /** The first part of `process_task_execution_response`: what the executor sent is
        recorded and saved. */
    method RecordResult(item: StoreItem, x: ExecutionResponse)
      modifies `items, item`p2, item`account, item`state
      ensures item.View() ==
        old(item.View()).(p2 := Some(x.p2), account := Some(x.account), state := ReceivedExecutionResult)
      ensures items == old(items)[item.info.taskId := item.View()]
    {
      item.p2 := Some(x.p2);
      item.account := Some(x.account);
      item.state := ReceivedExecutionResult;
      Save(item);
    }

    /** The rest of it, on an item that has just been saved. */
    method ShareAndSave(item: StoreItem, x: ExecutionResponse)
      requires item.info.taskId in items
      modifies `items, `outbox, item`responses, item`state
      ensures item.View() == old(item.View()).(responses := old(item.responses) + Awaiting(x.pinners), state := SentToInitialPinner)
      ensures items == old(items)[item.info.taskId := item.View()]
      ensures outbox == old(outbox) + SliceRequests(x, item.info.taskId)
    {
      ShareSlices(item, x);
      item.state := SentToInitialPinner;
      Save(item);
    }

    /** `process_task_execution_response`. */
    method ProcessTaskExecutionResponse(x: ExecutionResponse) returns (ok: bool)
      requires Valid()
      modifies this
      ensures Valid() && reports == old(reports) && (ok <==> x.taskId in old(items))
      ensures !ok ==> items == old(items) && outbox == old(outbox)
      ensures ok ==>
        var o := OnExecutionResponse(old(items)[x.taskId], x);
        items == old(items)[x.taskId := o.item] && outbox == old(outbox) + o.out
      ensures ok ==>
        var before, item := old(items)[x.taskId], items[x.taskId];
        && item.p2 == Some(x.p2) && item.account == Some(x.account) && item.state == SentToInitialPinner
        && (forall i :: 0 <= i < |x.pinners| ==> x.pinners[i].peer in item.responses && item.responses[x.pinners[i].peer] == None)
        && |outbox| == |old(outbox)| + |x.pinners|
        && (forall i :: 0 <= i < |x.pinners| ==>
              outbox[|old(outbox)| + i] == SliceRequestMsg(x.pinners[i].peer,
                SliceRequest(before.info.taskId, x.p2, x.pinners[i].slice, x.account)))
    {
      if x.taskId !in items { return false; }
      var item := new StoreItem.Loaded(items[x.taskId]);
      RecordResult(item, x);
      ShareAndSave(item, x);
      ok := true;
    }

    /** `process_task_pinner_key_slice_response`; `order` is the order in which the
        response map happens to be walked. */
    method ProcessTaskPinnerKeySliceResponse(taskId: Id, peer: Id, d: nat, order: seq<Id>) returns (ok: bool)
      requires Valid()
      requires taskId in items ==> IsOrderOf(order, items[taskId].responses.Keys)
      modifies this
      ensures Valid() && outbox == old(outbox)
      ensures taskId !in old(items) ==> !ok && items == old(items) && reports == old(reports)
      ensures taskId in old(items) ==>
        var o := OnSliceResponse(old(items)[taskId], peer, d, order);
        && ok == o.ok && items == old(items)[taskId := o.item]
        && reports == old(reports) + if o.report.Some? then [o.report.value] else []
      ensures taskId in old(items) && peer !in old(items)[taskId].responses ==>
        ok && items == old(items) && reports == old(reports)
      ensures taskId in old(items) && peer in old(items)[taskId].responses ==>
        items[taskId].responses == old(items)[taskId].responses[peer := Some(d)]
    {
      if taskId !in items { return false; }
      var item := new StoreItem.Loaded(items[taskId]);
      if peer !in item.responses { return true; }
      item.responses := item.responses[peer := Some(d)];
      assert item.responses.Keys == items[taskId].responses.Keys;
      var ready := item.IsAllInitialPinnersReady(order);
      if !ready {
        Save(item);
        return true;
      }
      item.state := ReceivedAllPinnerResponse;
      Save(item);
      var report := item.IntoResult(order);
      if report.None? { return false; }
      reports := reports + [report.value];
      ok := true;
    }
  }
}
