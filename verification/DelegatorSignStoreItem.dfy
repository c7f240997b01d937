/** The delegator's signing item as the object that the handlers load, change and save. */
module DelegatorSignStoreItem {
  import opened Types
  import opened SymbolicCrypto
  import opened KeyGenTypes
  import opened SignTypes
  import opened DelegatorSign

  lemma TablesGrow(ids: seq<nat>, i: nat)
    requires i < |ids|
    ensures SliceTable(ids[..i + 1]) == SliceTable(ids[..i])[ids[i] := None]
    ensures CandidateTable(ids[..i + 1]) == CandidateTable(ids[..i])[ids[i] := []]
  {
    assert ids[..i + 1] == ids[..i] + [ids[i]];
  }

  lemma PutLast<K, V>(a: map<K, V>, b: map<K, V>, k: K, v: V)
    ensures (a + b)[k := v] == a + b[k := v]
  {
  }

  class StoreItem {
    var info: TaskInfo
    var state: SignState
    var executor: Option<NodeInfo>
    var account: Data
    var p1Signature: Data
    var transaction: Data
    var nonce: Data
    var keySlices: map<nat, Option<KeySliceInfo>>
    var deploymentCandidates: map<nat, seq<Id>>

    /** The value that is stored for this item. */
    function View(): SignItem
      reads this
    {
      SignItem(info, state, executor, account, p1Signature, transaction, nonce, keySlices, deploymentCandidates)
    }

    constructor Loaded(item: SignItem)
      ensures View() == item
    {
      info, state, executor := item.info, item.state, item.executor;
      account, p1Signature, transaction, nonce := item.account, item.p1Signature, item.transaction, item.nonce;
      keySlices, deploymentCandidates := item.slices, item.candidates;
    }

    /** `init_deployment_resources`. */
    method InitDeploymentResources(ids: seq<nat>)
      modifies `keySlices, `deploymentCandidates
      ensures keySlices == old(keySlices) + SliceTable(ids)
      ensures deploymentCandidates == old(deploymentCandidates) + CandidateTable(ids)
    {
      for i := 0 to |ids|
        invariant keySlices == old(keySlices) + SliceTable(ids[..i])
        invariant deploymentCandidates == old(deploymentCandidates) + CandidateTable(ids[..i])
      {
        TablesGrow(ids, i);
        PutLast(old(keySlices), SliceTable(ids[..i]), ids[i], None);
        PutLast(old(deploymentCandidates), CandidateTable(ids[..i]), ids[i], []);
        keySlices := keySlices[ids[i] := None];
        deploymentCandidates := deploymentCandidates[ids[i] := []];
      }
      assert ids[..|ids|] == ids;
    }

    predicate HasFoundKeySlice(d: nat)
      reads this
      ensures HasFoundKeySlice(d) <==> HasFound(View(), d)
    {
      if d in keySlices then keySlices[d].Some? else false
    }

    method InsertDeployment(d: nat, peer: Id) returns (ok: bool)
      modifies `deploymentCandidates
      ensures ok <==> d in old(deploymentCandidates)
      ensures deploymentCandidates ==
        if ok then old(deploymentCandidates)[d := old(deploymentCandidates)[d] + [peer]] else old(deploymentCandidates)
    {
      ok := d in deploymentCandidates;
      if ok { deploymentCandidates := deploymentCandidates[d := deploymentCandidates[d] + [peer]]; }
    }

    method InsertKeySliceInfo(d: nat, slice: KeySliceInfo) returns (ok: bool)
      modifies `keySlices
      ensures ok <==> d in old(keySlices)
      ensures keySlices == if ok then old(keySlices)[d := Some(slice)] else old(keySlices)
    {
      ok := d in keySlices;
      if ok { keySlices := keySlices[d := Some(slice)]; }
    }

    predicate ReadySendToExecutor()
      reads this
      ensures ReadySendToExecutor() <==> ReadyToSend(View())
    {
      var found := map d | d in keySlices && keySlices[d].Some? :: keySlices[d];
      assert found.Keys == FoundSet(View());
      |found| >= info.exec.k
    }

    method PopAllCandidates() returns (candidates: map<nat, seq<Id>>)
      modifies `deploymentCandidates
      ensures candidates == old(deploymentCandidates) && deploymentCandidates == map[]
    {
      candidates := deploymentCandidates;
      deploymentCandidates := map[];
    }

    /** Walks the slice map in whatever order it has. */
    method GetEncryptedKeySlices(order: seq<nat>) returns (slices: seq<Data>)
      requires IsOrderOf(order, keySlices.Keys)
      ensures slices == Collected(order, keySlices)
    {
      slices := [];
      for i := 0 to |order|
        invariant slices == Collected(order[..i], keySlices)
      {
        assert order[i] in Elements(order);
        assert order[..i + 1][..i] == order[..i];
        if keySlices[order[i]].Some? { slices := slices + [keySlices[order[i]].value.slice]; }
      }
      assert order[..|order|] == order;
    }
  }
}
