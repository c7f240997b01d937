/** One key generation task as a transition system: the delegator's item, what every peer
    stores under the task, everything under way, and what layer 1 has been told. A step
    delivers one message or continuation, or loses one. */
module KeyGenProtocol {
  import opened Types
  import opened SymbolicCrypto
  import opened KeyGenTypes
  import opened TaskInfos
  import opened Environment
  import opened KeyGenElection
  import opened PeerKeyGen
  import opened DelegatorKeyGen
  import RaProperties

  /** What is stored for the task: at the delegator, at the peers and at layer 1. */
  datatype Stored = Stored(item: KeyGenItem, stores: map<Id, PeerStore>, reports: seq<Report>)

  datatype KeyGenTask = KeyGenTask(net: multiset<KeyGenEvent>, at: Stored)

  /** What a handler reads from outside: the delegate list, the swarm, and the orders in
      which the response map and the bag of properties happen to be walked. */
  datatype Inputs = Inputs(delegates: seq<Id>, swarm: seq<Id>, order: seq<Id>, bag: seq<string>)

  datatype Action =
    | Deliver(event: KeyGenEvent, inputs: Inputs)
    | Lose(event: KeyGenEvent)

  function StoreAt(c: Stored, p: Id): PeerStore {
    if p in c.stores then c.stores[p] else EMPTY_STORE
  }

  /** A message is delivered at most once: handling it takes it off the net. */
  function NetAfter(net: multiset<KeyGenEvent>, e: KeyGenEvent, out: seq<KeyGenEvent>): multiset<KeyGenEvent> {
    net - multiset{e} + multiset(out)
  }

  /** What handling one message leaves: what is stored, the environment, what was sent. */
  datatype Effect = Effect(at: Stored, env: Env, out: seq<KeyGenEvent>)

  function AtPeer(c: Stored, p: Id, step: PeerStep): Effect {
    Effect(c.(stores := c.stores[p := step.store]), step.env, step.out)
  }

  function AtDelegator(c: Stored, env: Env, outcome: Outcome): Effect {
    Effect(c.(item := outcome.item), env, if outcome.Done? then outcome.out else [])
  }

  function Reported(c: Stored, env: Env, o: SliceOutcome): Effect {
    Effect(c.(item := o.item, reports := if o.report.Some? then c.reports + [o.report.value] else c.reports), env, [])
  }

  predicate IsForPeer(e: KeyGenEvent) {
    e.CandidateMsg? || e.SignatureChecked? || e.ExecutionRequestMsg? || e.SliceRequestMsg?
      || e.UploadKeyRegistered? || e.DataUploaded?
  }

  function PeerStepOf(c: Stored, env: Env, e: KeyGenEvent): PeerStep
    requires IsForPeer(e)
  {
    var s := StoreAt(c, e.peer);
    match e
    case CandidateMsg(p, r) => OnCandidateRequest(s, env, p, r)
    case SignatureChecked(p, r) => OnSignatureChecked(s, env, p, r)
    case ExecutionRequestMsg(p, x) => OnExecutionRequest(s, env, p, x)
    case SliceRequestMsg(p, x) => OnSliceRequest(s, env, p, x)
    case UploadKeyRegistered(p, x, pin, session) => OnUploadKey(s, env, p, x, pin, session)
    case DataUploaded(p, x, pin, session, cid, url) => OnDataUploaded(s, env, p, x, pin, session, cid, url)
  }

  /** The role an application asks to be attested for. */
  function Attestation(taskId: Id, pub: RsaPublic, executor: bool): RaProperties.Role {
    var task := RaProperties.TaskId(taskId);
    if executor then RaProperties.KeyGenExecutor(task, pub) else RaProperties.KeyGenPinner(task, pub)
  }

  /** The attested peer's properties have come back and been dispatched. */
  function OnAttested(item: KeyGenItem, peer: Id, back: RaProperties.Dispatched): Outcome {
    match back
    case Reached(KeyGenExecutor(task, pub)) =>
      if task == RaProperties.TaskId(item.info.taskId) then OnRaSuccess(item, NodeInfo(peer, pub), true) else Done(item, [])
    case Reached(KeyGenPinner(task, pub)) =>
      if task == RaProperties.TaskId(item.info.taskId) then OnRaSuccess(item, NodeInfo(peer, pub), false) else Done(item, [])
    case Refused => Failed(item)
    case _ => Done(item, [])
  }

  function AttestedOutcome(item: KeyGenItem, e: KeyGenEvent, bag: seq<string>): Outcome
    requires e.RaSucceeded?
  {
    OnAttested(item, e.peer, RaProperties.Returned(Attestation(item.info.taskId, e.pub, e.executor), bag))
  }

  ghost predicate BagWalked(item: KeyGenItem, e: KeyGenEvent, bag: seq<string>) {
    e.RaSucceeded? ==> IsOrderOf(bag, RaProperties.BagOf(Attestation(item.info.taskId, e.pub, e.executor)).Keys)
  }

  /** However the bag was walked, the success reaches the handler of the role the peer
      applied for, with this task and the key the peer sent. */
  lemma AttestedIsApplied(item: KeyGenItem, e: KeyGenEvent, bag: seq<string>)
    requires e.RaSucceeded? && BagWalked(item, e, bag)
    ensures AttestedOutcome(item, e, bag) == OnRaSuccess(item, NodeInfo(e.peer, e.pub), e.executor)
  {
    RaProperties.ReturnedIsRole(Attestation(item.info.taskId, e.pub, e.executor), bag);
  }

  function Handle(c: Stored, env: Env, e: KeyGenEvent, inputs: Inputs): Effect
    requires c.item.info.exec.n != 0
  {
    match e
    case DelegatesReply => Effect(c, env, OnDelegates(c.item.info, inputs.delegates, inputs.swarm))
    case ProfileReply(p) => Effect(c, env, [CandidateMsg(p, RequestFor(c.item.info, true))])
    case ApplyMsg(p, pub, executor) => Effect(c, env, [RaSucceeded(p, pub, executor)])
    case RaSucceeded(_, _, _) => AtDelegator(c, env, AttestedOutcome(c.item, e, inputs.bag))
    case ExecutionResponseMsg(_, x) => AtDelegator(c, env, OnExecutionResponse(c.item, x))
    case SliceResponseMsg(p, d) => Reported(c, env, OnSliceResponse(c.item, p, d, inputs.order))
    case _ => AtPeer(c, e.peer, PeerStepOf(c, env, e))
  }

  ghost predicate Enabled(t: KeyGenTask, a: Action) {
    match a
    case Deliver(e, inputs) =>
      && e in t.net
      && (e.DelegatesReply? ==> Distinct(inputs.delegates) && Distinct(inputs.swarm))
      && BagWalked(t.at.item, e, inputs.bag)
      && (e.SliceResponseMsg? ==> IsOrderOf(inputs.order, t.at.item.responses.Keys))
    case Lose(e) => e in t.net
  }

  ghost function Next(t: KeyGenTask, env: Env, a: Action): (KeyGenTask, Env)
    requires Enabled(t, a) && t.at.item.info.exec.n != 0
  {
    match a
    case Deliver(e, inputs) =>
      var r := Handle(t.at, env, e, inputs);
      (KeyGenTask(NetAfter(t.net, e, r.out), r.at), r.env)
    case Lose(e) => (t.(net := NetAfter(t.net, e, [])), env)
  }

  /** The one request of layer 1, taken up by the one delegator. */
  function Begin(item: KeyGenItem): KeyGenTask {
    KeyGenTask(multiset{DelegatesReply}, Stored(item, map[], []))
  }
}
