/** What every reachable state of a signing task satisfies. */
module SignInvariant {
  import opened Types
  import opened SymbolicCrypto
  import opened KeyGenTypes
  import opened Environment
  import opened SignTypes
  import opened DelegatorSign
  import opened PeerSign
  import opened SignProtocol

  /** The peer that a message on the way to becoming executor is about. */
  function Invitee(e: SignEvent): Option<Id> {
    match e
    case SignProfileReply(p) => Some(p)
    case SignCandidateMsg(p, _) => Some(p)
    case SignRequestMsg(p, _) => Some(p)
    case ExecutorAttested(p, _) => Some(p)
    case _ => None
  }

  /** Each peer is on its way at most once, and the delegate list is awaited alone;
      everything else may be there several times. */
  ghost predicate SignNetShape(net: multiset<SignEvent>) {
    && (forall e :: e in net && (Invitee(e).Some? || e.SignDelegatesReply?) ==> net[e] == 1)
    && (forall e, f :: e in net && f in net && Invitee(e).Some? && Invitee(e) == Invitee(f) ==> e == f)
    && (SignDelegatesReply in net ==> forall e :: e in net ==> e == SignDelegatesReply)
  }

  predicate NotExecutor(c: SignStored, p: Id) {
    c.item.executor.Some? ==> c.item.executor.value.peer != p
  }

  predicate Offered(c: SignStored, p: Id, pub: RsaPublic) {
    SignStoreAt(c, p) == SignStore(Some(ExecutorItem(c.item.info, ExecRequested)), Some(RsaPrivate(pub.id)))
  }

  /** The executor still holds the private half of the key all slices are closed under. */
  predicate ExecutorHolds(c: SignStored) {
    var w := c.item.executor;
    w.Some? ==>
      var s := SignStoreAt(c, w.value.peer);
      s.exec.Some? && s.exec.value.info == c.item.info && s.rsa == Some(RsaPrivate(w.value.pub.id))
  }

  /** The slice behind d, closed for the executor. */
  predicate ForExecutor(c: SignStored, env: Env, d: nat, slice: Data) {
    && c.item.executor.Some? && Payload(env, d).Some?
    && slice == Rsa(c.item.executor.value.pub, Payload(env, d).value)
  }

  /** What the executor makes of a bundle. */
  function SignedFrom(c: SignStored, b: Bundle): Option<Data>
    requires c.item.executor.Some?
  {
    match Opened(Some(RsaPrivate(c.item.executor.value.pub.id)), b.slices)
    case None => None
    case Some(slices) =>
      match ShamirRecovery(c.item.info.exec.k, slices)
      case None => None
      case Some(secret) => Some(WitnessOf(c.item.info.exec, c.item.info.exec.taskType, secret, c.item.transaction))
  }

  ghost predicate Signed(c: SignStored, w: Data) {
    c.item.executor.Some? && exists i :: 0 <= i < |c.bundles| && SignedFrom(c, c.bundles[i]) == Some(w)
  }

  ghost predicate SignEventOk(c: SignStored, env: Env, e: SignEvent) {
    match e
    case SignDelegatesReply => c.stores == map[] && c.item.executor == None
    case SignProfileReply(p) => NotExecutor(c, p) && SignStoreAt(c, p) == EMPTY_SIGN_STORE
    case SignCandidateMsg(p, r) =>
      NotExecutor(c, p) && SignStoreAt(c, p) == EMPTY_SIGN_STORE && r == SignRequestFor(c.item)
    case SignRequestMsg(p, pub) => NotExecutor(c, p) && Offered(c, p, pub)
    case ExecutorAttested(p, pub) => NotExecutor(c, p) && Offered(c, p, pub)
    case SliceQuery(_, _, pub) => c.item.executor.Some? && pub == c.item.executor.value.pub
    case SliceReply(_, d, slice) => ForExecutor(c, env, d, slice)
    case BundleMsg(p, b) => c.item.executor.Some? && p == c.item.executor.value.peer && b in c.bundles
    case CommitMsg(_, w) => Signed(c, w)
  }

  ghost function SignAllowed(c: SignStored, env: Env): iset<SignEvent> {
    iset e: SignEvent | SignEventOk(c, env, e)
  }

  // ---------------------------------------------------------------- the item

  /** How many bundles have been sent once `found` deployments have answered. */
  function Sends(found: nat, k: nat): nat {
    if found < k then 0 else found - k + 1
  }

  /** How often p waits in the queue of d. */
  function Queued(item: SignItem, p: Id, d: nat): nat {
    if d in item.candidates then multiset(item.candidates[d])[p] else 0
  }

  ghost predicate SlicesOk(c: SignStored, env: Env) {
    && (forall d :: HasFound(c.item, d) ==> ForExecutor(c, env, d, c.item.slices[d].value.slice))
    && Distinct(c.found) && (forall d :: d in c.found <==> HasFound(c.item, d))
  }

  /** The i-th bundle holds the slices of the first k + i deployments that answered. */
  ghost predicate BundleOk(c: SignStored, i: nat)
    requires i < |c.bundles|
  {
    var k := c.item.info.exec.k;
    && k + i <= |c.found|
    && c.bundles[i] == Bundle(c.item.info.taskId, c.item.transaction, c.item.p1Signature,
                              c.item.info.exec.taskType, c.bundles[i].slices)
    && multiset(c.bundles[i].slices) == multiset(Collected(c.found[..k + i], c.item.slices))
  }

  ghost predicate BundlesOk(c: SignStored) {
    && |c.bundles| == (if c.item.executor.Some? then Sends(|c.found|, c.item.info.exec.k) else 0)
    && (forall i: nat :: i < |c.bundles| ==> BundleOk(c, i))
  }

  /** While nobody executes everybody waits; afterwards nobody does. */
  ghost predicate QueueOk(c: SignStored) {
    && (c.item.executor == None ==> c.item.candidates.Keys == c.item.slices.Keys && c.asked == multiset{})
    && (c.item.executor.Some? ==> c.item.candidates == map[])
    && (1 <= c.item.info.exec.k ==>
          forall p, d :: c.accepted[(p, d)] == Queued(c.item, p, d) + c.asked[(p, d)])
  }

  ghost predicate SignStoredOk(c: SignStored, env: Env) {
    && SlicesOk(c, env) && BundlesOk(c) && QueueOk(c) && ExecutorHolds(c)
    && (forall w :: w in c.commits ==> Signed(c, w))
  }

  ghost function SignSound(env: Env): iset<SignStored> {
    iset c: SignStored | SignStoredOk(c, env)
  }

  ghost predicate SignNetOk(net: multiset<SignEvent>, c: SignStored, env: Env) {
    && SignNetShape(net)
    && (forall e :: e in net ==> e in SignAllowed(c, env))
  }

  ghost predicate SignInv(t: SignTask, env: Env) {
    t.at in SignSound(env) && SignNetOk(t.net, t.at, env)
  }
}
