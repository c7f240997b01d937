/** The delegator at work in signing: load, change, save and send. */
module SignDelegator {
  import opened Types
  import opened SymbolicCrypto
  import opened KeyGenTypes
  import opened SignTypes
  import opened DelegatorSign
  import opened DelegatorSignStoreItem
  import RaProperties

  /** A request to the pinner actor: find whoever holds a deployment, and give it these
      properties to bring back. */
  datatype Search = Search(deployment: nat, properties: RaProperties.Bag)

  function SearchesFor(taskId: Id, ids: seq<nat>): seq<Search> {
    seq(|ids|, i requires 0 <= i < |ids| => Search(ids[i], RaProperties.PinnerBag(RaProperties.TaskId(taskId))))
  }

  /** Every deployment is searched for, in turn; and when a pinner of the i-th has been found
      and attested, its properties, however they were walked, lead back to this task and to
      that deployment. */
  lemma SearchesLeadBack(taskId: Id, ids: seq<nat>, i: nat, order: seq<string>)
    requires i < |ids|
    requires var bag := SearchesFor(taskId, ids)[i].properties[
        RaProperties.PROPERTY_DEPLOYMENT_ID := RaProperties.DeploymentId(ids[i])];
      IsOrderOf(order, bag.Keys)
    ensures |SearchesFor(taskId, ids)| == |ids| && SearchesFor(taskId, ids)[i].deployment == ids[i]
    ensures var bag := SearchesFor(taskId, ids)[i].properties[
        RaProperties.PROPERTY_DEPLOYMENT_ID := RaProperties.DeploymentId(ids[i])];
      && (forall key :: key in order ==> key in bag)
      && RaProperties.AfterVerify(RaProperties.Flattened(order, bag))
           == RaProperties.Reached(RaProperties.SignPinner(RaProperties.TaskId(taskId), RaProperties.DeploymentId(ids[i])))
  {
    RaProperties.RoleRoundTrip(
      RaProperties.SignPinner(RaProperties.TaskId(taskId), RaProperties.DeploymentId(ids[i])), order);
  }

  lemma AskedOneMore(sent: seq<SignEvent>, queue: seq<nat>, candidates: map<nat, seq<Id>>, i: nat, pub: RsaPublic)
    requires i < |queue| && queue[i] in candidates
    ensures sent + Queries(Drained(queue[..i], candidates), pub) + Queries(PairsWith(candidates[queue[i]], queue[i]), pub)
         == sent + Queries(Drained(queue[..i + 1], candidates), pub)
  {
    assert queue[..i + 1][..i] == queue[..i];
  }

  class Delegator {
    var items: map<Id, SignItem>
    var outbox: seq<SignEvent>
    var searches: seq<Search>

    ghost predicate Valid()
      reads this
    {
      forall id :: id in items ==> items[id].info.taskId == id
    }

    constructor ()
      ensures Valid() && items == map[] && outbox == [] && searches == []
    {
      items, outbox, searches := map[], [], [];
    }

    /** The handler for this task did what it was to do, or found no item. */
    twostate predicate Did(taskId: Id, o: SignOutcome)
      reads this
    {
      items == old(items)[taskId := o.item] && outbox == old(outbox) + o.out
    }

    method Save(item: StoreItem)
      modifies `items
      ensures items == old(items)[item.info.taskId := item.View()]
    {
      items := items[item.info.taskId := item.View()];
    }

    method Send(e: SignEvent)
      modifies `outbox
      ensures outbox == old(outbox) + [e]
    {
      outbox := outbox + [e];
    }

    /** The reply to `get_deployment_ids`, for the node that became the delegator. */
    method ProcessSignEvent(e: SignEventData, nonce: Data, exec: ExecInfo, ids: seq<nat>)
      requires Valid()
      modifies `items, `outbox
      ensures Valid()
      ensures items == old(items)[e.taskId := SignStarted(e, nonce, exec, ids)]
      ensures outbox == old(outbox) + [SignDelegatesReply]
      ensures e.taskId in items
      ensures var item := items[e.taskId];
        && item.info == TaskInfo(e.taskId, exec) && item.state == SignInitialized && item.executor == None
        && item.account == e.account && item.p1Signature == e.p1Signature && item.transaction == e.transaction
        && item.nonce == nonce
        && (forall d :: (d in item.slices <==> d in ids) && (d in item.candidates <==> d in ids))
        && (forall d :: d in ids ==> item.slices[d] == None && item.candidates[d] == [])
    {
      var item := new StoreItem.Loaded(
        SignItem(TaskInfo(e.taskId, ExecInfo(0, 0, "")), SignInit, None, e.account, e.p1Signature, e.transaction, nonce,
                 map[], map[]));
      item.info := item.info.(exec := exec);
      item.InitDeploymentResources(ids);
      assert map[] + SliceTable(ids) == SliceTable(ids) && map[] + CandidateTable(ids) == CandidateTable(ids);
      item.state := SignInitialized;
      Save(item);
      Send(SignDelegatesReply);
    }

    /** `begin_find_pinners` for every deployment. */
    method FindPinners(taskId: Id, ids: seq<nat>)
      modifies `searches
      ensures searches == old(searches) + SearchesFor(taskId, ids)
      ensures |searches| == |old(searches)| + |ids|
      ensures forall i :: 0 <= i < |ids| ==> searches[|old(searches)| + i].deployment == ids[i]
    {
      var properties := RaProperties.PinnerProperties(RaProperties.TaskId(taskId));
      ghost var all := SearchesFor(taskId, ids);
      for i := 0 to |ids|
        invariant searches == old(searches) + all[..i]
      {
        searches := searches + [Search(ids[i], properties)];
        assert all[..i] + [all[i]] == all[..i + 1];
      }
      assert all[..|ids|] == all;
    }

    /** The reply to `get_delegates`; the deployment ids are those of the earlier reply. */
    method InviteCandidates(taskId: Id, delegates: seq<Id>, ids: seq<nat>) returns (ok: bool)
      requires Valid()
      modifies this
      ensures Valid() && (ok <==> taskId in old(items))
      ensures searches == old(searches) + SearchesFor(taskId, ids)
      ensures |searches| == |old(searches)| + |ids|
      ensures forall i :: 0 <= i < |ids| ==> searches[|old(searches)| + i].deployment == ids[i]
      ensures if ok then Did(taskId, OnSignDelegates(old(items)[taskId], delegates))
              else items == old(items) && outbox == old(outbox) + SignProfiles(delegates)
    {
      ghost var profiles := SignProfiles(delegates);
      for i := 0 to |delegates|
        invariant outbox == old(outbox) + profiles[..i] && items == old(items) && searches == old(searches)
      {
        Send(SignProfileReply(delegates[i]));
        assert profiles[..i] + [profiles[i]] == profiles[..i + 1];
      }
      FindPinners(taskId, ids);
      if taskId !in items { return false; }
      var item := new StoreItem.Loaded(items[taskId]);
      item.state := FindingDeployments;
      Save(item);
      ok := true;
    }

    /** `process_executor_sign_with_key_slices_request`. */
    method ProcessExecutorRequest(taskId: Id, peer: Id, pub: RsaPublic) returns (ok: bool)
      requires Valid()
      modifies `items, `outbox
      ensures Valid() && (ok <==> taskId in old(items))
      ensures if ok then Did(taskId, OnSignRequest(old(items)[taskId], peer, pub)) else items == old(items) && outbox == old(outbox)
      ensures items == old(items)
      ensures ok && old(items)[taskId].executor.Some? ==> outbox == old(outbox)
      ensures ok && old(items)[taskId].executor.None? ==> outbox == old(outbox) + [ExecutorAttested(peer, pub)]
    {
      if taskId !in items { return false; }
      var item := new StoreItem.Loaded(items[taskId]);
      if item.executor.Some? { return true; }
      Send(ExecutorAttested(peer, pub));
      ok := true;
    }

    /** `try_send_to_executor`, on an item that has just been saved. */
    method TrySendToExecutor(item: StoreItem, order: seq<nat>) returns (ok: bool)
      requires item.info.taskId in items && items[item.info.taskId] == item.View()
      requires IsOrderOf(order, item.keySlices.Keys)
      modifies `items, `outbox, item
      ensures var o := TrySendBundle(old(item.View()), order);
        && ok == o.ok && items == old(items)[old(item.info.taskId) := o.item] && outbox == old(outbox) + o.out
    {
      if !item.ReadySendToExecutor() { return true; }
      var slices := item.GetEncryptedKeySlices(order);
      var bundle := Bundle(item.info.taskId, item.transaction, item.p1Signature, item.info.exec.taskType, slices);
      if item.executor.None? { return false; }
      Send(BundleMsg(item.executor.value.peer, bundle));
      item.state := SignSentToExecutor;
      Save(item);
      ok := true;
    }

    /** The two loops over the drained queue. */
    method AskQueue(candidates: map<nat, seq<Id>>, queue: seq<nat>, pub: RsaPublic)
      requires IsOrderOf(queue, candidates.Keys)
      modifies `outbox
      ensures outbox == old(outbox) + Queries(Drained(queue, candidates), pub)
    {
      for i := 0 to |queue|
        invariant outbox == old(outbox) + Queries(Drained(queue[..i], candidates), pub)
      {
        assert queue[i] in Elements(queue);
        AskedOneMore(old(outbox), queue, candidates, i, pub);
        AskPeers(candidates[queue[i]], queue[i], pub);
      }
      assert queue[..|queue|] == queue;
    }

    method AskPeers(peers: seq<Id>, d: nat, pub: RsaPublic)
      modifies `outbox
      ensures outbox == old(outbox) + Queries(PairsWith(peers, d), pub)
    {
      ghost var all := Queries(PairsWith(peers, d), pub);
      for i := 0 to |peers|
        invariant outbox == old(outbox) + all[..i]
      {
        Send(SliceQuery(peers[i], d, pub));
        assert all[..i] + [all[i]] == all[..i + 1];
      }
      assert all[..|peers|] == all;
    }

    /** `on_executor_ra_success`; `queue` and `order` are the orders in which the candidate
        map is drained and the slice map walked. */
    method OnExecutorRaSuccess(taskId: Id, who: NodeInfo, queue: seq<nat>, order: seq<nat>) returns (ok: bool)
      requires Valid()
      requires taskId in items ==>
        IsOrderOf(queue, items[taskId].candidates.Keys) && IsOrderOf(order, items[taskId].slices.Keys)
      modifies `items, `outbox
      ensures Valid()
      ensures taskId !in old(items) ==> !ok && items == old(items) && outbox == old(outbox)
      ensures taskId in old(items) ==>
        var o := OnExecutorAttested(old(items)[taskId], who, queue, order);
        ok == o.ok && Did(taskId, o)
    {
      if taskId !in items { return false; }
      var item := new StoreItem.Loaded(items[taskId]);
      if item.executor.Some? { return true; }
      item.executor := Some(who);
      var candidates := item.PopAllCandidates();
      Save(item);
      if item.ReadySendToExecutor() {
        ok := TrySendToExecutor(item, order);
        return;
      }
      AskQueue(candidates, queue, who.pub);
      ok := true;
    }

    /** `on_pinner_ra_success`. */
    method OnPinnerRaSuccess(taskId: Id, peer: Id, d: nat) returns (ok: bool)
      requires Valid()
      modifies `items, `outbox
      ensures Valid()
      ensures taskId !in old(items) ==> !ok && items == old(items) && outbox == old(outbox)
      ensures taskId in old(items) ==>
        var o := OnPinnerAttested(old(items)[taskId], peer, d);
        ok == o.ok && Did(taskId, o)
    {
      if taskId !in items { return false; }
      var item := new StoreItem.Loaded(items[taskId]);
      if item.HasFoundKeySlice(d) { return true; }
      if item.executor.None? {
        ok := item.InsertDeployment(d, peer);
        if ok { Save(item); }
        return;
      }
      Send(SliceQuery(peer, d, item.executor.value.pub));
      ok := true;
    }

    /** `process_pinner_key_slice_response`. */
    method ProcessPinnerKeySliceResponse(taskId: Id, peer: Id, d: nat, slice: Data, order: seq<nat>) returns (ok: bool)
      requires Valid()
      requires taskId in items ==> IsOrderOf(order, items[taskId].slices.Keys)
      modifies `items, `outbox
      ensures Valid()
      ensures taskId !in old(items) ==> !ok && items == old(items) && outbox == old(outbox)
      ensures taskId in old(items) ==>
        var o := OnSliceReply(old(items)[taskId], peer, d, slice, order);
        ok == o.ok && Did(taskId, o)
    {
      if taskId !in items { return false; }
      var item := new StoreItem.Loaded(items[taskId]);
      if item.HasFoundKeySlice(d) { return true; }
      ok := item.InsertKeySliceInfo(d, KeySliceInfo(peer, slice));
      if !ok { return; }
      assert item.keySlices.Keys == items[taskId].slices.Keys;
      Save(item);
      ok := TrySendToExecutor(item, order);
    }

    /** `process_commit_sign_result_request`. */
    method ProcessCommit(taskId: Id) returns (ok: bool)
      requires Valid()
      modifies `items, `outbox
      ensures Valid() && (ok <==> taskId in old(items))
      ensures if ok then Did(taskId, OnCommit(old(items)[taskId])) else items == old(items) && outbox == old(outbox)
    {
      if taskId !in items { return false; }
      var item := new StoreItem.Loaded(items[taskId]);
      item.state := CommitResult;
      Save(item);
      ok := true;
    }
  }
}
