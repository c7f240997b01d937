/** The values of the signing protocol. */
module SignTypes {
  import opened Types
  import opened SymbolicCrypto
  import opened KeyGenTypes

  datatype SignState = SignInit | SignInitialized | FindingDeployments | SignSentToExecutor | CommitResult

  datatype KeySliceInfo = KeySliceInfo(peer: Id, slice: Data)

  /** `DelegatorSignStoreItem`. Deployment ids are the keys of both maps. */
  datatype SignItem = SignItem(
    info: TaskInfo, state: SignState, executor: Option<NodeInfo>,
    account: Data, p1Signature: Data, transaction: Data, nonce: Data,
    slices: map<nat, Option<KeySliceInfo>>, candidates: map<nat, seq<Id>>)

  /** What layer 1 asks to be signed. */
  datatype SignEventData = SignEventData(taskId: Id, account: Data, p1Signature: Data, transaction: Data)

  datatype SignCandidate = SignCandidate(taskId: Id, account: Data, n: nat, k: nat, taskType: string)

  /** `TaskSignWithKeySlicesResponse`: the slices on their way to the executor. */
  datatype Bundle = Bundle(taskId: Id, transaction: Data, p1Signature: Data, keyType: string, slices: seq<Data>)

  /** What one peer stores under a signing task. */
  datatype SignStore = SignStore(exec: Option<ExecutorItem>, rsa: Option<RsaPrivate>)

  const EMPTY_SIGN_STORE := SignStore(None, None)

  datatype SignEvent =
    | SignDelegatesReply
    | SignProfileReply(peer: Id)
    | SignCandidateMsg(peer: Id, request: SignCandidate)
    | SignRequestMsg(peer: Id, pub: RsaPublic)
    | ExecutorAttested(peer: Id, pub: RsaPublic)
    | SliceQuery(peer: Id, deployment: nat, pub: RsaPublic)
    | SliceReply(peer: Id, deployment: nat, slice: Data)
    | BundleMsg(peer: Id, bundle: Bundle)
    | CommitMsg(peer: Id, signed: Data)

  /** The saved item, what was sent, and whether the handler came to its end without an
      error. */
  datatype SignOutcome = SignOutcome(item: SignItem, out: seq<SignEvent>, ok: bool)
}
