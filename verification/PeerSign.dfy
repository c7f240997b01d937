/** What a peer does in a signing task: offer itself as executor, hand out a slice, or
    recover and sign. */
module PeerSign {
  import opened Types
  import opened SymbolicCrypto
  import opened KeyGenTypes
  import opened Environment
  import opened SignTypes

  datatype SignStep = SignStep(store: SignStore, env: Env, out: seq<SignEvent>, ok: bool)

  /** `process_sign_with_key_slices_handler`. The numbers are narrowed, not validated. */
  function OnSignCandidate(store: SignStore, env: Env, me: Id, r: SignCandidate): SignStep {
    var key := env.nextKey;
    var info := TaskInfo(r.taskId, ExecInfo(r.n % 256, r.k % 256, r.taskType));
    SignStep(SignStore(Some(ExecutorItem(info, ExecRequested)), Some(RsaPrivate(key))),
             env.(nextKey := key + 1), [SignRequestMsg(me, RsaPublic(key))], true)
  }

  /** The slice of a deployment, if the peer's own pinner actor holds the deployment: that of
      the peer that registered it does, and others may, which is decided elsewhere. */
  function HeldSlice(env: Env, me: Id, d: nat, elsewhere: bool): Option<Data> {
    if d in env.deployments && (env.deployments[d].owner == me || elsewhere) then Payload(env, d) else None
  }

  /** `task_sign_with_key_slices_request_handler` of a pinner: open the deployment, close
      the slice again for the executor. */
  function OnSliceQuery(store: SignStore, env: Env, me: Id, d: nat, pub: RsaPublic, elsewhere: bool): SignStep {
    match HeldSlice(env, me, d, elsewhere)
    case None => SignStep(store, env, [], false)
    case Some(slice) => SignStep(store, env, [SliceReply(me, d, Rsa(pub, slice))], true)
  }

  /** The decrypting loop: it stops at the first slice that does not open. */
  function Opened(rsa: Option<RsaPrivate>, slices: seq<Data>): Option<seq<Data>> {
    if slices == [] then Some([])
    else
      match Opened(rsa, slices[..|slices| - 1])
      case None => None
      case Some(before) =>
        if rsa.None? then None
        else
          match RsaDecrypt(rsa.value, slices[|slices| - 1])
          case None => None
          case Some(slice) => Some(before + [slice])
  }

  function WitnessOf(exec: ExecInfo, keyType: string, secret: Data, transaction: Data): Data {
    Witness(exec.k, [], [Signature(keyType, secret, transaction)], exec.taskType)
  }

  /** `task_sign_with_key_slices_response_handler`: open, recover, sign, commit. */
  function OnBundle(store: SignStore, env: Env, me: Id, b: Bundle): SignStep {
    if store.exec.None? then SignStep(store, env, [], false)
    else
      var item := store.exec.value;
      var responded := store.(exec := Some(item.(state := ExecResponded)));
      match Opened(store.rsa, b.slices)
      case None => SignStep(responded, env, [], false)
      case Some(slices) =>
        match ShamirRecovery(item.info.exec.k, slices)
        case None => SignStep(responded, env, [], false)
        case Some(secret) =>
          SignStep(store.(exec := Some(item.(state := ExecExecuted))), env,
                   [CommitMsg(me, WitnessOf(item.info.exec, b.keyType, secret, b.transaction))], true)
  }
}
