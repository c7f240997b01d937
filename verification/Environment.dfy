/** What the nodes share or draw from: fresh values, the block store, the deployments of
    the pinner actors, and each peer's temporary records, kept by account. */
module Environment {
  import opened Types
  import opened SymbolicCrypto

  /** A data cid and the AES key that opens it, registered by the peer that uploaded. */
  datatype Deployment = Deployment(owner: Id, cid: Data, key: Data)

  /** `origin` remembers which task each generated wallet key belongs to. */
  datatype Env = Env(
    nextKey: nat, nextDeployment: nat,
    blocks: set<Data>, deployments: map<nat, Deployment>,
    cids: map<(Id, Data), Data>, ids: map<(Id, Data), nat>,
    origin: map<nat, Id>)

  /** The wallet key in a multi-signature account. */
  function AccountKey(account: Data): Option<nat> {
    if account.MultiSig? && |account.keys| == 2 && account.keys[1].PublicOf? && account.keys[1].secret.Secret?
    then Some(account.keys[1].secret.id) else None
  }

  predicate HasRecord(env: Env, key: (Id, Data)) {
    key in env.cids || key in env.ids
  }

  ghost predicate EnvOk(env: Env) {
    && (forall d :: d in env.deployments ==> d < env.nextDeployment)
    && (forall s :: s in env.origin ==> s < env.nextKey)
    && (forall key :: HasRecord(env, key) ==> AccountKey(key.1).Some? && AccountKey(key.1).value in env.origin)
  }

  /** What is behind a deployment id: the block under its cid, opened with its key. */
  function Payload(env: Env, d: nat): Option<Data> {
    if d !in env.deployments then None
    else
      var dep := env.deployments[d];
      if dep.cid.Cid? && dep.cid.block in env.blocks then AesDecrypt(dep.key, dep.cid.block) else None
  }

  /** Nothing that was stored is changed; more may be. */
  predicate Grows(env: Env, env': Env) {
    && env.nextKey <= env'.nextKey && env.nextDeployment <= env'.nextDeployment
    && env.blocks <= env'.blocks
    && (forall d :: d in env.deployments ==> d in env'.deployments && env'.deployments[d] == env.deployments[d])
    && (forall s :: s in env.origin ==> s in env'.origin && env'.origin[s] == env.origin[s])
  }

  predicate SameRecord(env: Env, env': Env, key: (Id, Data)) {
    && (key in env.cids <==> key in env'.cids) && (key in env.cids ==> env'.cids[key] == env.cids[key])
    && (key in env.ids <==> key in env'.ids) && (key in env.ids ==> env'.ids[key] == env.ids[key])
  }

  /** Nobody has written a record for this account. */
  ghost predicate NoRecords(env: Env, account: Data) {
    forall p: Id :: !HasRecord(env, (p, account))
  }

  lemma PayloadStable(env: Env, env': Env, d: nat)
    requires Grows(env, env') && Payload(env, d).Some?
    ensures Payload(env', d) == Payload(env, d)
  {
  }
}
