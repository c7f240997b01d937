/** What an invited peer does in a key generation task: apply, execute, or pin a slice.
    Each handler and each callback is a function on what the peer has stored under the
    task; `ok` is false where it returns an error. */
module PeerKeyGen {
  import opened Types
  import opened SymbolicCrypto
  import opened KeyGenTypes
  import opened TaskInfos
  import opened Environment

  datatype PeerStep = PeerStep(store: PeerStore, env: Env, out: seq<KeyGenEvent>, ok: bool)

  function Ignored(store: PeerStore, env: Env): PeerStep { PeerStep(store, env, [], true) }

  function Refused(store: PeerStore, env: Env): PeerStep { PeerStep(store, env, [], false) }

  /** The gates of src/executor.rs and src/initial_pinner.rs, up to the profile lookup. */
  function OnCandidateRequest(store: PeerStore, env: Env, me: Id, r: CandidateRequest): PeerStep {
    if (r.executor && store.pin.Some?) || (!r.executor && store.exec.Some?) then Ignored(store, env)
    else PeerStep(store, env, [SignatureChecked(me, r)], true)
  }

  /** The candidate handlers after the lookup: store the item and a fresh RSA key, apply. */
  function OnSignatureChecked(store: PeerStore, env: Env, me: Id, r: CandidateRequest): PeerStep {
    match FromCandidateRequest(r)
    case None => Refused(store, env)
    case Some(info) =>
      var key := env.nextKey;
      var store' := store.(rsa := Some(RsaPrivate(key)));
      PeerStep(
        if r.executor then store'.(exec := Some(ExecutorItem(info, ExecRequested)))
        else store'.(pin := Some(PinnerItem(info, PinRequested))),
        env.(nextKey := key + 1),
        [ApplyMsg(me, RsaPublic(key), r.executor)], true)
  }

  /** `generate_task_execution_response` for the wallet key numbered `key`. */
  function ExecutionResult(item: ExecutorItem, x: ExecutionRequest, key: nat): (r: ExecutionResponse)
    requires |x.pinners| < 256
    ensures |r.pinners| == |x.pinners|
  {
    var slices := ShamirShare(|x.pinners|, x.minimum % 256, Secret(key));
    ExecutionResponse(
      x.taskId,
      seq(|x.pinners|, i requires 0 <= i < |x.pinners| =>
        PinnerSlice(x.pinners[i].peer, Rsa(x.pinners[i].pub, slices[i]))),
      PublicOf(Secret(key)),
      MultiSig(item.info.exec.k, [x.p1, PublicOf(Secret(key))], item.info.exec.taskType))
  }

  /** `task_execution_request_handler`. The number of slices is the number of pinners
      cut to a u8, so from 256 pinners on the pairing runs out of slices. */
  function OnExecutionRequest(store: PeerStore, env: Env, me: Id, x: ExecutionRequest): PeerStep {
    if store.exec.None? then Refused(store, env)
    else
      var item := store.exec.value;
      if 256 <= |x.pinners| then
        PeerStep(store.(exec := Some(item.(state := ExecResponded))), env, [], false)
      else
        var key := env.nextKey;
        PeerStep(store.(exec := Some(item.(state := ExecExecuted))),
                 env.(nextKey := key + 1, origin := env.origin[key := x.taskId]),
                 [ExecutionResponseMsg(me, ExecutionResult(item, x, key))], true)
  }

  /** The conversion of an executor item that is asked to pin. */
  function AsPinner(item: ExecutorItem): PinnerItem {
    PinnerItem(item.info,
               match item.state
               case ExecInit => PinInit
               case ExecRequested => PinRequested
               case ExecResponded => PinResponded
               case ExecExecuted => PinDeployed)
  }

  /** `trying_get_initial_pinner_store_item`. */
  function PinnerItemOf(store: PeerStore): Option<PinnerItem> {
    if store.pin.Some? then store.pin
    else if store.exec.Some? then Some(AsPinner(store.exec.value))
    else None
  }

  /** `task_pinner_key_slice_request_handler`, up to asking for an upload key. The pinner
      actor registers a fresh session key. */
  function OnSliceRequest(store: PeerStore, env: Env, me: Id, s: SliceRequest): PeerStep {
    match PinnerItemOf(store)
    case None => Refused(store, env)
    case Some(item) =>
      var pin := item.(state := PinResponded);
      PeerStep(store.(pin := Some(pin)), env.(nextKey := env.nextKey + 1),
               [UploadKeyRegistered(me, s, pin, env.nextKey)], true)
  }

  /** `deploy_key_slice`, first callback: open the slice, close it again under a fresh
      AES key, put the block, remember its cid, send the AES key to the session. */
  function OnUploadKey(store: PeerStore, env: Env, me: Id, s: SliceRequest, pin: PinnerItem, session: nat): PeerStep {
    if store.rsa.None? then Refused(store, env)
    else
      match RsaDecrypt(store.rsa.value, s.slice)
      case None => Refused(store, env)
      case Some(slice) =>
        var key := AesKey(env.nextKey);
        var block := Aes(key, slice);
        PeerStep(store,
                 env.(nextKey := env.nextKey + 1,
                      blocks := env.blocks + {block},
                      cids := env.cids[(me, s.account) := Cid(block)]),
                 [DataUploaded(me, s, pin, session, Cid(block), Rsa(RsaPublic(session), key))], true)
  }

  /** The pinner actor opens the AES key and registers the deployment; then the second
      callback remembers the deployment id, saves the item it captured, and answers. */
  function OnDataUploaded(store: PeerStore, env: Env, me: Id, s: SliceRequest, pin: PinnerItem,
                          session: nat, cid: Data, keyUrl: Data): PeerStep
  {
    match RsaDecrypt(RsaPrivate(session), keyUrl)
    case None => Refused(store, env)
    case Some(key) =>
      var d := env.nextDeployment;
      PeerStep(store.(pin := Some(pin.(state := PinDeployed))),
               env.(nextDeployment := d + 1,
                    deployments := env.deployments[d := Deployment(me, cid, key)],
                    ids := env.ids[(me, s.account) := d]),
               [SliceResponseMsg(me, d)], true)
  }

  datatype Commit = Commit(peer: Id, deployment: nat, cid: Data)

  /** `trying_commit_data_upload`: None where it only logs; an error where a record is
      missing. */
  datatype CommitOutcome = NotInvolved | Committed(commit: Commit) | RecordMissing

  function OnAssetGenerated(store: PeerStore, env: Env, me: Id, account: Data): CommitOutcome {
    if store.pin.None? then NotInvolved
    else if (me, account) in env.cids && (me, account) in env.ids then
      Committed(Commit(me, env.ids[(me, account)], env.cids[(me, account)]))
    else RecordMissing
  }
}
