/** What every reachable state of a key generation task satisfies. The handlers check
    almost nothing, so these are facts about the messages that can exist. */
module KeyGenInvariant {
  import opened Types
  import opened SymbolicCrypto
  import opened KeyGenTypes
  import opened TaskInfos
  import opened Environment
  import opened KeyGenElection
  import opened DelegatorKeyGen
  import opened KeyGenProtocol

  /** The part a message plays: at most one message plays each part at any time. */
  datatype Token = Inviting | Invitation(peer: Id) | Execution | Slicing(peer: Id)

  function TokenOf(e: KeyGenEvent): Token {
    match e
    case DelegatesReply => Inviting
    case ProfileReply(p) => Invitation(p)
    case CandidateMsg(p, _) => Invitation(p)
    case SignatureChecked(p, _) => Invitation(p)
    case ApplyMsg(p, _, _) => Invitation(p)
    case RaSucceeded(p, _, _) => Invitation(p)
    case ExecutionRequestMsg(_, _) => Execution
    case ExecutionResponseMsg(_, _) => Execution
    case SliceRequestMsg(p, _) => Slicing(p)
    case UploadKeyRegistered(p, _, _, _) => Slicing(p)
    case DataUploaded(p, _, _, _, _, _) => Slicing(p)
    case SliceResponseMsg(p, _) => Slicing(p)
  }

  ghost predicate OneEach(net: multiset<KeyGenEvent>) {
    && (forall e :: e in net ==> net[e] == 1)
    && (forall e, f :: e in net && f in net && TokenOf(e) == TokenOf(f) ==> e == f)
  }

  // ---------------------------------------------------------------- the roster

  /** Every peer that has been attested, in whatever place it now is. */
  function Roster(item: KeyGenItem): multiset<NodeInfo> {
    (if item.executor.Some? then multiset{item.executor.value} else multiset{})
      + multiset(item.pinners) + multiset(item.cip) + multiset(item.ce)
  }

  ghost predicate DistinctPeers(m: multiset<NodeInfo>) {
    && (forall c :: c in m ==> m[c] == 1)
    && (forall c, d :: c in m && d in m && c.peer == d.peer ==> c == d)
  }

  ghost predicate Enlisted(item: KeyGenItem, p: Id) {
    exists c :: c in Roster(item) && c.peer == p
  }

  predicate IsPinner(pinners: seq<NodeInfo>, p: Id) {
    exists i :: 0 <= i < |pinners| && pinners[i].peer == p
  }

  ghost function SlotOf(pinners: seq<NodeInfo>, p: Id): (i: nat)
    requires IsPinner(pinners, p)
    ensures i < |pinners| && pinners[i].peer == p
  {
    var i :| 0 <= i < |pinners| && pinners[i].peer == p;
    i
  }

  // ---------------------------------------------------------------- stores

  /** The peer applied in this role and has done nothing since. */
  predicate Applied(c: Stored, who: NodeInfo, executor: bool) {
    StoreAt(c, who.peer) ==
      if executor then PeerStore(Some(ExecutorItem(c.item.info, ExecRequested)), None, Some(RsaPrivate(who.pub.id)))
      else PeerStore(None, Some(PinnerItem(c.item.info, PinRequested)), Some(RsaPrivate(who.pub.id)))
  }

  predicate AppliedSomehow(c: Stored, who: NodeInfo) {
    Applied(c, who, true) || Applied(c, who, false)
  }

  /** The peer holds the private half of the key the delegator recorded for it. */
  predicate HoldsKey(c: Stored, who: NodeInfo) {
    StoreAt(c, who.peer).rsa == Some(RsaPrivate(who.pub.id))
  }

  // ---------------------------------------------------------------- slices

  /** The wallet key was generated for this task, and the account is made from it. */
  predicate KeysOk(item: KeyGenItem, env: Env) {
    && item.p2.Some? && item.p2.value.PublicOf? && item.p2.value.secret.Secret?
    && item.p2.value.secret.id in env.origin && env.origin[item.p2.value.secret.id] == item.info.taskId
    && item.account == Some(MultiSig(item.info.exec.k, [item.p1, item.p2.value], item.info.exec.taskType))
  }

  ghost function ShareFor(item: KeyGenItem, p: Id): Data
    requires item.p2.Some? && item.p2.value.PublicOf? && IsPinner(item.pinners, p)
  {
    Share(item.p2.value.secret, item.info.exec.n, item.info.exec.k, SlotOf(item.pinners, p))
  }

  /** A pinner is still to answer, and `s` is the request made out to it. */
  ghost predicate Waiting(c: Stored, env: Env, p: Id, s: SliceRequest) {
    && c.item.state == SentToInitialPinner && KeysOk(c.item, env) && IsPinner(c.item.pinners, p)
    && p in c.item.responses && c.item.responses[p] == None
    && s == SliceRequest(c.item.info.taskId, c.item.p2.value,
                         Rsa(c.item.pinners[SlotOf(c.item.pinners, p)].pub, ShareFor(c.item, p)), c.item.account.value)
    && HoldsKey(c, c.item.pinners[SlotOf(c.item.pinners, p)])
  }

  /** The block behind cid is the peer's share under `key`. */
  ghost predicate Uploaded(item: KeyGenItem, env: Env, p: Id, cid: Data, key: Data)
    requires item.p2.Some? && item.p2.value.PublicOf? && IsPinner(item.pinners, p)
  {
    cid == Cid(Aes(key, ShareFor(item, p))) && cid.block in env.blocks
  }

  /** The peer has deployed its share under d and remembers both halves of the upload. */
  ghost predicate Deployed(c: Stored, env: Env, p: Id, d: nat) {
    && KeysOk(c.item, env) && IsPinner(c.item.pinners, p)
    && d in env.deployments && env.deployments[d].owner == p
    && Uploaded(c.item, env, p, env.deployments[d].cid, env.deployments[d].key)
    && StoreAt(c, p).pin == Some(PinnerItem(c.item.info, PinDeployed))
    && var key := (p, c.item.account.value);
       && key in env.cids && env.cids[key] == env.deployments[d].cid
       && key in env.ids && env.ids[key] == d
  }

  // ---------------------------------------------------------------- messages

  /** The peer of an invitation has not been seen before. */
  ghost predicate Untouched(c: Stored, p: Id) {
    !Enlisted(c.item, p) && StoreAt(c, p) == EMPTY_STORE
  }

  ghost predicate ResultOk(item: KeyGenItem, env: Env, x: ExecutionResponse) {
    && x.taskId == item.info.taskId
    && KeysOk(item.(p2 := Some(x.p2), account := Some(x.account)), env)
    && |x.pinners| == |item.pinners|
    && (forall i :: 0 <= i < |x.pinners| ==>
          x.pinners[i] == PinnerSlice(item.pinners[i].peer,
            Rsa(item.pinners[i].pub, Share(x.p2.secret, item.info.exec.n, item.info.exec.k, i))))
  }

  ghost predicate EventOk(c: Stored, env: Env, e: KeyGenEvent) {
    match e
    case DelegatesReply => c.stores == map[] && Roster(c.item) == multiset{} && c.item.state == InvitedCandidates
    case ProfileReply(p) => Untouched(c, p)
    case CandidateMsg(p, r) => Untouched(c, p) && r == RequestFor(c.item.info, r.executor)
    case SignatureChecked(p, r) => Untouched(c, p) && r == RequestFor(c.item.info, r.executor)
    case ApplyMsg(p, pub, executor) => !Enlisted(c.item, p) && Applied(c, NodeInfo(p, pub), executor)
    case RaSucceeded(p, pub, executor) => !Enlisted(c.item, p) && Applied(c, NodeInfo(p, pub), executor)
    case ExecutionRequestMsg(p, x) =>
      && c.item.state == SentToExecutor && c.item.executor.Some?
      && p == c.item.executor.value.peer && x == RequestOf(c.item)
      && StoreAt(c, p).exec == Some(ExecutorItem(c.item.info, ExecRequested))
    case ExecutionResponseMsg(_, x) =>
      c.item.state == SentToExecutor && ResultOk(c.item, env, x) && NoRecords(env, x.account)
    case SliceRequestMsg(p, s) =>
      && Waiting(c, env, p, s) && AppliedSomehow(c, c.item.pinners[SlotOf(c.item.pinners, p)])
    case UploadKeyRegistered(p, s, pin, _) =>
      && Waiting(c, env, p, s) && pin == PinnerItem(c.item.info, PinResponded) && StoreAt(c, p).pin == Some(pin)
    case DataUploaded(p, s, pin, session, cid, url) =>
      && Waiting(c, env, p, s) && StoreAt(c, p).pin == Some(pin) && pin.info == c.item.info
      && url.Rsa? && url.pub == RsaPublic(session)
      && Uploaded(c.item, env, p, cid, url.payload)
      && (p, s.account) in env.cids && env.cids[(p, s.account)] == cid
    case SliceResponseMsg(p, d) =>
      && c.item.state == SentToInitialPinner && p in c.item.responses && c.item.responses[p] == None
      && Deployed(c, env, p, d)
  }

  /** The messages that may be under way next to this item and these stores. */
  ghost function Allowed(c: Stored, env: Env): iset<KeyGenEvent> {
    iset e: KeyGenEvent | EventOk(c, env, e)
  }

  // ---------------------------------------------------------------- the item

  ghost predicate ResponsesOk(c: Stored, env: Env) {
    && KeysOk(c.item, env)
    && (forall p :: p in c.item.responses <==> IsPinner(c.item.pinners, p))
    && (forall p :: p in c.item.responses && c.item.responses[p].Some? ==>
          Deployed(c, env, p, c.item.responses[p].value))
    && (forall p: Id :: HasRecord(env, (p, c.item.account.value)) ==> IsPinner(c.item.pinners, p))
  }

  ghost predicate StageOk(c: Stored, env: Env) {
    var i := c.item;
    match i.state
    case InvitedCandidates =>
      && i.executor == None && i.pinners == [] && i.p2 == None && i.account == None && i.responses == map[]
      && !CandidatesReady(i) && c.reports == []
    case SentToExecutor =>
      && RequestReady(i) && i.p2 == None && i.account == None && i.responses == map[] && c.reports == []
      && (forall j :: 0 <= j < |i.pinners| ==> AppliedSomehow(c, i.pinners[j]))
    case SentToInitialPinner =>
      RequestReady(i) && ResponsesOk(c, env) && !AllReady(i.responses) && c.reports == []
    case ReceivedAllPinnerResponse =>
      && RequestReady(i) && ResponsesOk(c, env) && AllReady(i.responses)
      && exists order :: IsOrderOf(order, i.responses.Keys) && ReportOf(i, order).Some?
           && c.reports == [ReportOf(i, order).value]
    case _ => false
  }

  /** The tasks whose item is as its stage demands. */
  ghost function InStage(env: Env): iset<Stored> {
    iset c: Stored | StageOk(c, env)
  }

  ghost predicate Crew(c: Stored) {
    && DistinctPeers(Roster(c.item))
    && (forall w :: w in c.item.ce ==> Applied(c, w, true))
    && (forall w :: w in c.item.cip ==> Applied(c, w, false))
  }

  /** No part is played twice, and the delegate list is awaited alone. */
  ghost predicate NetShape(net: multiset<KeyGenEvent>) {
    && OneEach(net)
    && (DelegatesReply in net ==> forall e :: e in net ==> e == DelegatesReply)
  }

  ghost predicate NetOk(net: multiset<KeyGenEvent>, c: Stored, env: Env) {
    && NetShape(net)
    && (forall e :: e in net ==> e in Allowed(c, env))
  }

  ghost predicate StoredOk(c: Stored, env: Env) {
    && Valid(c.item.info) && c.item.info.exec.n <= 254
    && Crew(c) && c in InStage(env)
  }

  ghost predicate Inv(t: KeyGenTask, env: Env) {
    StoredOk(t.at, env) && NetOk(t.net, t.at, env)
  }
}
