/** A peer at work in key generation: its stores of executor items, pinner items and RSA
    keys, and the messages it sends, next to the environment it shares with all others. */
module KeyGenPeer {
  import opened Types
  import opened SymbolicCrypto
  import opened KeyGenTypes
  import opened TaskInfos
  import opened Environment
  import opened PeerKeyGen

  class Surroundings {
    var env: Env

    constructor (initial: Env)
      ensures env == initial
    {
      env := initial;
    }

    method FreshKey() returns (key: nat)
      modifies this
      ensures key == old(env).nextKey && env == old(env).(nextKey := key + 1)
    {
      key := env.nextKey;
      env := env.(nextKey := key + 1);
    }
  }

  class Peer {
    const me: Id
    const around: Surroundings
    var executors: map<Id, ExecutorItem>
    var pinners: map<Id, PinnerItem>
    var rsaKeys: map<Id, RsaPrivate>
    var outbox: seq<KeyGenEvent>

    constructor (me: Id, around: Surroundings)
      ensures Valid() && this.me == me && this.around == around && outbox == []
      ensures forall id :: StoreOf(id) == EMPTY_STORE
    {
      this.me, this.around := me, around;
      executors, pinners, rsaKeys, outbox := map[], map[], map[], [];
    }

    /** Items are stored under their own task id. */
    ghost predicate Valid()
      reads this
    {
      && (forall id :: id in executors ==> executors[id].info.taskId == id)
      && (forall id :: id in pinners ==> pinners[id].info.taskId == id)
    }

    /** What is stored under a task. */
    function StoreOf(id: Id): PeerStore
      reads this
    {
      PeerStore(if id in executors then Some(executors[id]) else None,
                if id in pinners then Some(pinners[id]) else None,
                if id in rsaKeys then Some(rsaKeys[id]) else None)
    }

    /** Since the old state the peer has done just this step, for this task. */
    twostate predicate Did(id: Id, step: PeerStep)
      reads this, around
    {
      && StoreOf(id) == step.store && around.env == step.env && outbox == old(outbox) + step.out
      && forall other :: other != id ==> StoreOf(other) == old(StoreOf(other))
    }

    method Send(e: KeyGenEvent)
      modifies `outbox
      ensures outbox == old(outbox) + [e]
    {
      outbox := outbox + [e];
    }

    /** The two gates: an executor candidate must not be a pinner of the task, nor the
        other way round. */
    method TaskKeyGenerationCandidateRequest(r: CandidateRequest)
      requires Valid()
      modifies this
      ensures Valid()
      ensures Did(r.taskId, OnCandidateRequest(old(StoreOf(r.taskId)), old(around.env), me, r))
      ensures outbox == old(outbox) +
        if (r.executor && r.taskId in old(pinners)) || (!r.executor && r.taskId in old(executors)) then []
        else [SignatureChecked(me, r)]
    {
      if r.executor {
        if r.taskId in pinners { return; }
      } else {
        if r.taskId in executors { return; }
      }
      Send(SignatureChecked(me, r));
    }

    /** `send_key_generation_request`: a fresh key pair, its private half stored under
        the task, its public half sent. */
    method SendKeyGenerationRequest(info: TaskInfo, executor: bool)
      modifies `rsaKeys, `outbox, around
      ensures rsaKeys == old(rsaKeys)[info.taskId := RsaPrivate(old(around.env).nextKey)]
      ensures around.env == old(around.env).(nextKey := old(around.env).nextKey + 1)
      ensures outbox == old(outbox) + [ApplyMsg(me, RsaPublic(old(around.env).nextKey), executor)]
    {
      var key := around.FreshKey();
      rsaKeys := rsaKeys[info.taskId := RsaPrivate(key)];
      Send(ApplyMsg(me, RsaPublic(key), executor));
    }

    /** The candidate handlers, once the delegator's profile has been found. */
    method CandidateVerified(r: CandidateRequest) returns (ok: bool)
      requires Valid()
      modifies this, around
      ensures Valid()
      ensures var step := OnSignatureChecked(old(StoreOf(r.taskId)), old(around.env), me, r);
        ok == step.ok && Did(r.taskId, step)
    {
      var info := FromCandidateRequest(r);
      if info.None? { return false; }
      if r.executor {
        executors := executors[info.value.taskId := ExecutorItem(info.value, ExecInit)];
        SendKeyGenerationRequest(info.value, true);
        executors := executors[info.value.taskId := ExecutorItem(info.value, ExecRequested)];
      } else {
        pinners := pinners[info.value.taskId := PinnerItem(info.value, PinInit)];
        SendKeyGenerationRequest(info.value, false);
        pinners := pinners[info.value.taskId := PinnerItem(info.value, PinRequested)];
      }
      ok := true;
    }

    /** `generate_task_execution_response` for a wallet key: pairs the pinners with the
        slices, and gives up where the slices run out. */
    static method GenerateTaskExecutionResponse(item: ExecutorItem, x: ExecutionRequest, key: nat)
      returns (r: Option<ExecutionResponse>)
      ensures r == if |x.pinners| < 256 then Some(ExecutionResult(item, x, key)) else None
    {
      var slices := ShamirShare(|x.pinners| % 256, x.minimum % 256, Secret(key));
      var index := 0;
      var paired: seq<PinnerSlice> := [];
      for i := 0 to |x.pinners|
        invariant index == i == |paired| <= |slices|
        invariant forall j :: 0 <= j < i ==>
          paired[j] == PinnerSlice(x.pinners[j].peer, Rsa(x.pinners[j].pub, slices[j]))
      {
        if |slices| <= index { return None; }
        paired := paired + [PinnerSlice(x.pinners[i].peer, Rsa(x.pinners[i].pub, slices[index]))];
        index := index + 1;
      }
      assert |x.pinners| < 256 && paired == ExecutionResult(item, x, key).pinners;
      var p2 := PublicOf(Secret(key));
      r := Some(ExecutionResponse(x.taskId, paired, p2, MultiSig(item.info.exec.k, [x.p1, p2], item.info.exec.taskType)));
    }

    method TaskExecutionRequest(x: ExecutionRequest) returns (ok: bool)
      requires Valid()
      modifies this, around
      ensures Valid()
      ensures var step := OnExecutionRequest(old(StoreOf(x.taskId)), old(around.env), me, x);
        ok == step.ok && Did(x.taskId, step)
      ensures ok <==> x.taskId in old(executors) && |x.pinners| < 256
      ensures x.taskId in old(executors) ==>
        executors == old(executors)[x.taskId := old(executors)[x.taskId].(state := if ok then ExecExecuted else ExecResponded)]
    {
      if x.taskId !in executors { return false; }
      var item := executors[x.taskId];
      item := item.(state := ExecResponded);
      executors := executors[item.info.taskId := item];
      var key := around.env.nextKey;
      var response := GenerateTaskExecutionResponse(item, x, key);
      if response.None? { return false; }
      around.env := around.env.(nextKey := key + 1, origin := around.env.origin[key := x.taskId]);
      Send(ExecutionResponseMsg(me, response.value));
      item := item.(state := ExecExecuted);
      executors := executors[item.info.taskId := item];
      ok := true;
    }

    method TaskPinnerKeySliceRequest(s: SliceRequest) returns (ok: bool)
      requires Valid()
      modifies this, around
      ensures Valid()
      ensures var step := OnSliceRequest(old(StoreOf(s.taskId)), old(around.env), me, s);
        ok == step.ok && Did(s.taskId, step)
      ensures ok <==> s.taskId in old(pinners) || s.taskId in old(executors)
      ensures ok ==> s.taskId in pinners && pinners[s.taskId] == PinnerItem(
        if s.taskId in old(pinners) then old(pinners)[s.taskId].info else old(executors)[s.taskId].info, PinResponded)
    {
      var item: PinnerItem;
      if s.taskId in pinners {
        item := pinners[s.taskId];
      } else if s.taskId in executors {
        item := AsPinner(executors[s.taskId]);
      } else {
        return false;
      }
      item := item.(state := PinResponded);
      pinners := pinners[item.info.taskId := item];
      var session := around.FreshKey();
      Send(UploadKeyRegistered(me, s, item, session));
      ok := true;
    }

    /** `decrypt_key_slice`. */
    method DecryptKeySlice(id: Id, slice: Data) returns (r: Option<Data>)
      ensures r == if id in rsaKeys then RsaDecrypt(rsaKeys[id], slice) else None
    {
      if id !in rsaKeys { return None; }
      r := RsaDecrypt(rsaKeys[id], slice);
    }

    method UploadKeyArrived(s: SliceRequest, pin: PinnerItem, session: nat) returns (ok: bool)
      modifies this, around
      ensures var step := OnUploadKey(old(StoreOf(s.taskId)), old(around.env), me, s, pin, session);
        ok == step.ok && Did(s.taskId, step)
      ensures ok <==> s.taskId in rsaKeys && RsaDecrypt(rsaKeys[s.taskId], s.slice).Some?
    {
      var slice := DecryptKeySlice(s.taskId, s.slice);
      if slice.None? { return false; }
      var key := around.FreshKey();
      var block := Aes(AesKey(key), slice.value);
      around.env := around.env.(blocks := around.env.blocks + {block});
      around.env := around.env.(cids := around.env.cids[(me, s.account) := Cid(block)]);
      Send(DataUploaded(me, s, pin, session, Cid(block), Rsa(RsaPublic(session), AesKey(key))));
      ok := true;
    }

    /** The upload is registered by the pinner actor; then its callback runs, with the item
        that the request left it, and saves that item under the item's own task. */
    method UploadCompleted(s: SliceRequest, pin: PinnerItem, session: nat, cid: Data, keyUrl: Data) returns (ok: bool)
      requires Valid()
      modifies this, around
      ensures Valid() && executors == old(executors) && rsaKeys == old(rsaKeys)
      ensures var step := OnDataUploaded(old(StoreOf(s.taskId)), old(around.env), me, s, pin, session, cid, keyUrl);
        && ok == step.ok && around.env == step.env && outbox == old(outbox) + step.out
        && pinners == (if ok then old(pinners)[pin.info.taskId := pin.(state := PinDeployed)] else old(pinners))
        && (pin.info.taskId == s.taskId ==> Did(s.taskId, step))
    {
      var key := RsaDecrypt(RsaPrivate(session), keyUrl);
      if key.None? { return false; }
      var d := around.env.nextDeployment;
      around.env := around.env.(nextDeployment := d + 1,
                                deployments := around.env.deployments[d := Deployment(me, cid, key.value)]);
      around.env := around.env.(ids := around.env.ids[(me, s.account) := d]);
      pinners := pinners[pin.info.taskId := pin.(state := PinDeployed)];
      Send(SliceResponseMsg(me, d));
      ok := true;
    }

    /** `trying_commit_data_upload`. */
    method TryingCommitDataUpload(id: Id, account: Data) returns (outcome: CommitOutcome)
      ensures outcome == OnAssetGenerated(StoreOf(id), around.env, me, account)
    {
      if id !in pinners { return NotInvolved; }
      if (me, account) !in around.env.cids { return RecordMissing; }
      var cid := around.env.cids[(me, account)];
      if (me, account) !in around.env.ids { return RecordMissing; }
      outcome := Committed(Commit(me, around.env.ids[(me, account)], cid));
    }
  }
}
