/** A peer at work in signing: as the executor that recovers and signs, and as a pinner
    that hands out a slice. */
module SignPeer {
  import opened Types
  import opened SymbolicCrypto
  import opened KeyGenTypes
  import opened SignTypes
  import opened PeerSign
  import opened KeyGenPeer

  class Peer {
    const me: Id
    const around: Surroundings
    var executors: map<Id, ExecutorItem>
    var rsaKeys: map<Id, RsaPrivate>
    var outbox: seq<SignEvent>

    constructor (me: Id, around: Surroundings)
      ensures this.me == me && this.around == around && outbox == []
      ensures forall id :: StoreOf(id) == EMPTY_SIGN_STORE
    {
      this.me, this.around := me, around;
      executors, rsaKeys, outbox := map[], map[], [];
    }

    function StoreOf(id: Id): SignStore
      reads this
    {
      SignStore(if id in executors then Some(executors[id]) else None,
                if id in rsaKeys then Some(rsaKeys[id]) else None)
    }

    /** Since the old state the peer has done just this step, for this task. */
    twostate predicate Did(id: Id, step: SignStep)
      reads this, around
    {
      && StoreOf(id) == step.store && around.env == step.env && outbox == old(outbox) + step.out
      && forall other :: other != id ==> StoreOf(other) == old(StoreOf(other))
    }

    method Send(e: SignEvent)
      modifies `outbox
      ensures outbox == old(outbox) + [e]
    {
      outbox := outbox + [e];
    }

    /** `process_sign_with_key_slices_handler` with `send_sign_request`. */
    method ProcessSignWithKeySlices(r: SignCandidate)
      modifies this, around
      ensures Did(r.taskId, OnSignCandidate(old(StoreOf(r.taskId)), old(around.env), me, r))
    {
      var item := ExecutorItem(TaskInfo(r.taskId, ExecInfo(r.n % 256, r.k % 256, r.taskType)), ExecInit);
      executors := executors[r.taskId := item];
      var key := around.FreshKey();
      rsaKeys := rsaKeys[r.taskId := RsaPrivate(key)];
      Send(SignRequestMsg(me, RsaPublic(key)));
      executors := executors[r.taskId := item.(state := ExecRequested)];
    }

    /** A pinner's answer: ask the own pinner actor for the deployment, open it, close the
        slice for the executor. */
    method TaskSignGetSlice(taskId: Id, d: nat, pub: RsaPublic, elsewhere: bool) returns (ok: bool)
      modifies `outbox
      ensures var step := OnSliceQuery(old(StoreOf(taskId)), around.env, me, d, pub, elsewhere);
        ok == step.ok && outbox == old(outbox) + step.out && step.store == old(StoreOf(taskId)) && step.env == around.env
    {
      if d !in around.env.deployments { return false; }
      var deployment := around.env.deployments[d];
      if deployment.owner != me && !elsewhere { return false; }
      if !deployment.cid.Cid? || deployment.cid.block !in around.env.blocks { return false; }
      var slice := AesDecrypt(deployment.key, deployment.cid.block);
      if slice.None? { return false; }
      Send(SliceReply(me, d, Rsa(pub, slice.value)));
      ok := true;
    }

    /** The decrypting loop, which returns at the first slice that does not open. */
    method DecryptAll(taskId: Id, encrypted: seq<Data>) returns (slices: Option<seq<Data>>)
      ensures slices == Opened(StoreOf(taskId).rsa, encrypted)
    {
      var plain: seq<Data> := [];
      for i := 0 to |encrypted|
        invariant Opened(StoreOf(taskId).rsa, encrypted[..i]) == Some(plain)
      {
        assert encrypted[..i + 1][..i] == encrypted[..i];
        if taskId !in rsaKeys || RsaDecrypt(rsaKeys[taskId], encrypted[i]).None? {
          StaysShut(StoreOf(taskId).rsa, encrypted, i + 1);
          return None;
        }
        plain := plain + [RsaDecrypt(rsaKeys[taskId], encrypted[i]).value];
      }
      assert encrypted[..|encrypted|] == encrypted;
      slices := Some(plain);
    }

    /** `task_sign_with_key_slices_response_handler`. */
    method TaskSignWithKeySlicesResponse(b: Bundle) returns (ok: bool)
      modifies this
      ensures var step := OnBundle(old(StoreOf(b.taskId)), around.env, me, b);
        ok == step.ok && Did(b.taskId, step)
      ensures b.taskId in old(executors) ==>
        executors == old(executors)[b.taskId := old(executors)[b.taskId].(state := if ok then ExecExecuted else ExecResponded)]
    {
      if b.taskId !in executors { return false; }
      var item := executors[b.taskId];
      item := item.(state := ExecResponded);
      executors := executors[b.taskId := item];
      var slices := DecryptAll(b.taskId, b.slices);
      if slices.None? { return false; }
      var p2 := ShamirRecovery(item.info.exec.k, slices.value);
      if p2.None? { return false; }
      var signature := Signature(b.keyType, p2.value, b.transaction);
      var signed := Witness(item.info.exec.k, [], [signature], item.info.exec.taskType);
      Send(CommitMsg(me, signed));
      item := item.(state := ExecExecuted);
      executors := executors[b.taskId := item];
      ok := true;
    }
  }

  /** Once a slice did not open the whole does not. */
  lemma {:induction false} StaysShut(rsa: Option<RsaPrivate>, encrypted: seq<Data>, m: nat)
    requires m <= |encrypted| && Opened(rsa, encrypted[..m]) == None
    ensures Opened(rsa, encrypted) == None
  {
    if m == |encrypted| {
      assert encrypted[..m] == encrypted;
    } else {
      assert encrypted[..|encrypted| - 1][..m] == encrypted[..m];
      StaysShut(rsa, encrypted[..|encrypted| - 1], m);
    }
  }
}
