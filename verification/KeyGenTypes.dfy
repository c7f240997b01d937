/** The values of the key generation protocol: the delegator's stored item, the messages
    and the continuations that are waiting to run. */
module KeyGenTypes {
  import opened Types
  import opened SymbolicCrypto

  /** A candidate: its peer id and the RSA key it applied with. */
  datatype NodeInfo = NodeInfo(peer: Id, pub: RsaPublic)

  datatype KeyGenState =
    | Init
    | InvitedCandidates
    | RaBegun
    | RaCompleted
    | SentToExecutor
    | ReceivedExecutionResult
    | SentToInitialPinner
    | ReceivedAllPinnerResponse

  /** `DelegatorKeyGenStoreItem` as it is stored. `ce` and `cip` are the candidate
      executors and candidate initial pinners, both used as stacks. */
  datatype KeyGenItem = KeyGenItem(
    info: TaskInfo, state: KeyGenState, nonce: Data,
    executor: Option<NodeInfo>, pinners: seq<NodeInfo>,
    p1: Data, p2: Option<Data>, account: Option<Data>,
    responses: map<Id, Option<nat>>,
    ce: seq<NodeInfo>, cip: seq<NodeInfo>)

  /** What layer 1 asks for: `n` and `k` arrive as u32. */
  datatype KeyGenerationEvent = KeyGenerationEvent(taskId: Id, n: nat, k: nat, keyType: string, p1: Data)

  datatype CandidateRequest = CandidateRequest(taskId: Id, n: nat, k: nat, keyType: string, executor: bool)

  datatype ExecutionRequest = ExecutionRequest(taskId: Id, pinners: seq<NodeInfo>, minimum: nat, keyType: string, p1: Data)

  datatype PinnerSlice = PinnerSlice(peer: Id, slice: Data)

  datatype ExecutionResponse = ExecutionResponse(taskId: Id, pinners: seq<PinnerSlice>, p2: Data, account: Data)

  datatype SliceRequest = SliceRequest(taskId: Id, p2: Data, slice: Data, account: Data)

  /** `UpdateKeyGenerationResult`, as sent to layer 1. */
  datatype Report = Report(taskId: Id, nonce: Data, account: Data, p2: Data, deployments: seq<nat>)

  datatype ExecutorState = ExecInit | ExecRequested | ExecResponded | ExecExecuted

  /** `ExecutorStoreItem`. */
  datatype ExecutorItem = ExecutorItem(info: TaskInfo, state: ExecutorState)

  datatype PinnerState = PinInit | PinRequested | PinResponded | PinDeployed

  /** `InitialPinnerStoreItem`. */
  datatype PinnerItem = PinnerItem(info: TaskInfo, state: PinnerState)

  /** What one peer stores under one task id. */
  datatype PeerStore = PeerStore(exec: Option<ExecutorItem>, pin: Option<PinnerItem>, rsa: Option<RsaPrivate>)

  const EMPTY_STORE := PeerStore(None, None, None)

  /** Everything that is under way for one task: messages between the delegator and a
      peer, and callbacks that wait for another actor or for layer 1. */
  datatype KeyGenEvent =
    | DelegatesReply
    | ProfileReply(peer: Id)
    | CandidateMsg(peer: Id, request: CandidateRequest)
    | SignatureChecked(peer: Id, request: CandidateRequest)
    | ApplyMsg(peer: Id, pub: RsaPublic, executor: bool)
    | RaSucceeded(peer: Id, pub: RsaPublic, executor: bool)
    | ExecutionRequestMsg(peer: Id, execution: ExecutionRequest)
    | ExecutionResponseMsg(peer: Id, result: ExecutionResponse)
    | SliceRequestMsg(peer: Id, slice: SliceRequest)
    | UploadKeyRegistered(peer: Id, slice: SliceRequest, pin: PinnerItem, session: nat)
    | DataUploaded(peer: Id, slice: SliceRequest, pin: PinnerItem, session: nat, cid: Data, keyUrl: Data)
    | SliceResponseMsg(peer: Id, deployment: nat)

  /** What a handler leaves behind: the saved item and what it sent; or the item as it
      was saved before the handler returned an error; or before it began to loop. */
  datatype Outcome =
    | Done(item: KeyGenItem, out: seq<KeyGenEvent>)
    | Failed(item: KeyGenItem)
    | Diverges(item: KeyGenItem)
}
