/** The steps of a signing task that leave the delegator's books alone. */
module SignPeerSteps {
  import opened Types
  import opened Environment
  import opened SignTypes
  import opened DelegatorSign
  import opened PeerSign
  import opened SignProtocol
  import opened SignInvariant
  import opened SignSteps

  /** The effects of handling e that keep everything. */
  ghost function SignKept(net: multiset<SignEvent>, e: SignEvent, c: SignStored, env: Env): iset<SignEffect> {
    iset r: SignEffect |
      && r.at in SignSound(r.env) && SignNetOk(SignNetAfter(net, e, r.out), r.at, r.env)
      && Grows(env, r.env) && EnvOk(r.env) && (forall key :: SameRecord(env, r.env, key))
      && Unmoved(c, r.at)
  }

  /** The task is the same, the executor once chosen stays, and histories only grow. */
  ghost predicate Unmoved(c: SignStored, c': SignStored) {
    && c'.item.info == c.item.info && c'.item.transaction == c.item.transaction && c'.item.account == c.item.account
    && c'.item.p1Signature == c.item.p1Signature && c'.item.nonce == c.item.nonce
    && c'.item.slices.Keys == c.item.slices.Keys
    && (c.item.executor.Some? ==> c'.item.executor == c.item.executor)
    && c.found <= c'.found && c.bundles <= c'.bundles && c.commits <= c'.commits
    && (forall d :: HasFound(c.item, d) ==> HasFound(c'.item, d) && c'.item.slices[d] == c.item.slices[d])
  }

  /** Draws a number at most. */
  ghost predicate Draws(env: Env, env': Env) {
    env' == env || env' == env.(nextKey := env.nextKey + 1)
  }

  lemma KeptByParts(net: multiset<SignEvent>, c: SignStored, env: Env, e: SignEvent, r: SignEffect)
    requires r.at in SignSound(r.env) && SignNetOk(SignNetAfter(net, e, r.out), r.at, r.env)
    requires EnvOk(env) && Draws(env, r.env) && Unmoved(c, r.at)
    ensures r in SignKept(net, e, c, env)
  {
  }

  lemma QuietUnmoved(c: SignStored, env: Env, r: SignEffect, p: Id)
    requires Later(c, env, r.at, r.env, p) && SameBooks(c, r.at) && c.commits <= r.at.commits
    ensures Unmoved(c, r.at)
  {
  }

  /** A step that keeps the books. */
  lemma QuietStep(net: multiset<SignEvent>, c: SignStored, env: Env, e: SignEvent, r: SignEffect, p: Id)
    requires c in SignSound(env) && SignNetOk(net, c, env) && EnvOk(env) && e in net
    requires Later(c, env, r.at, r.env, p) && SameBooks(c, r.at) && ExecutorHolds(r.at) && Draws(env, r.env)
    requires Serves(c, e, r.at, p) && c.commits <= r.at.commits
    requires forall w :: w in r.at.commits ==> w in c.commits || Signed(r.at, w)
    requires forall g :: g in r.out ==> g in SignAllowed(r.at, r.env) && !g.SignDelegatesReply?
    requires (forall g :: g in r.out ==> Invitee(g).None?) || (|r.out| == 1 && Invitee(r.out[0]) == Invitee(e))
    ensures r in SignKept(net, e, c, env)
  {
    SoundKept(c, env, r.at, r.env, p);
    ServeStep(net, c, env, e, r.out, r.at, r.env, p);
    QuietUnmoved(c, env, r, p);
    KeptByParts(net, c, env, e, r);
  }

  lemma AtSignPeerOnly(c: SignStored, p: Id, s: SignStep)
    ensures var c' := AtSignPeer(c, p, s).at;
      && SignStoreAt(c', p) == s.store && (forall q :: q != p ==> SignStoreAt(c', q) == SignStoreAt(c, q))
      && c'.item == c.item && SameBooks(c, c') && c'.commits == c.commits
  {
  }

  lemma ProfileKept(net: multiset<SignEvent>, c: SignStored, env: Env, e: SignEvent, i: SignInputs)
    requires c in SignSound(env) && SignNetOk(net, c, env) && EnvOk(env) && e in net && e.SignProfileReply?
    ensures SignHandle(c, env, e, i) in SignKept(net, e, c, env)
  {
    assert e in SignAllowed(c, env);
    var g := SignCandidateMsg(e.peer, SignRequestFor(c.item));
    assert g in SignAllowed(c, env);
    QuietStep(net, c, env, e, SignEffect(c, env, [g]), e.peer);
  }

  lemma SignCandidateKept(net: multiset<SignEvent>, c: SignStored, env: Env, e: SignEvent, i: SignInputs)
    requires c in SignSound(env) && SignNetOk(net, c, env) && EnvOk(env) && e in net && e.SignCandidateMsg?
    ensures SignHandle(c, env, e, i) in SignKept(net, e, c, env)
  {
    assert e in SignAllowed(c, env);
    var s := OnSignCandidate(SignStoreAt(c, e.peer), env, e.peer, e.request);
    AtSignPeerOnly(c, e.peer, s);
    var r := AtSignPeer(c, e.peer, s);
    assert r.out[0] in SignAllowed(r.at, r.env);
    QuietStep(net, c, env, e, r, e.peer);
  }

  lemma SignRequestKept(net: multiset<SignEvent>, c: SignStored, env: Env, e: SignEvent, i: SignInputs)
    requires c in SignSound(env) && SignNetOk(net, c, env) && EnvOk(env) && e in net && e.SignRequestMsg?
    ensures SignHandle(c, env, e, i) in SignKept(net, e, c, env)
  {
    assert e in SignAllowed(c, env);
    var r := SignHandle(c, env, e, i);
    assert PairsAsked(r.out) == multiset{} && BundlesSent(r.out) == [];
    assert c.bundles + [] == c.bundles && c.asked + multiset{} == c.asked;
    assert ExecutorAttested(e.peer, e.pub) in SignAllowed(c, env);
    QuietStep(net, c, env, e, r, e.peer);
  }

  /** A pinner closes exactly what is behind the deployment, under the key it was sent. */
  lemma SliceQueryKept(net: multiset<SignEvent>, c: SignStored, env: Env, e: SignEvent, i: SignInputs)
    requires c in SignSound(env) && SignNetOk(net, c, env) && EnvOk(env) && e in net && e.SliceQuery?
    ensures SignHandle(c, env, e, i) in SignKept(net, e, c, env)
  {
    assert e in SignAllowed(c, env);
    var s := OnSliceQuery(SignStoreAt(c, e.peer), env, e.peer, e.deployment, e.pub, i.elsewhere);
    AtSignPeerOnly(c, e.peer, s);
    var r := AtSignPeer(c, e.peer, s);
    forall g | g in r.out ensures g in SignAllowed(r.at, r.env) && g.SliceReply? { }
    QuietStep(net, c, env, e, r, e.peer);
  }

  /** What the executor commits is made from a bundle that the delegator sent. */
  lemma BundleCommits(c: SignStored, env: Env, e: SignEvent)
    requires c in SignSound(env) && e in SignAllowed(c, env) && e.BundleMsg?
    ensures var r := AtSignPeer(c, e.peer, OnBundle(SignStoreAt(c, e.peer), env, e.peer, e.bundle));
      forall g :: g in r.out ==> g in SignAllowed(r.at, r.env) && g.CommitMsg?
  {
    var s := OnBundle(SignStoreAt(c, e.peer), env, e.peer, e.bundle);
    AtSignPeerOnly(c, e.peer, s);
    var r := AtSignPeer(c, e.peer, s);
    var j :| 0 <= j < |c.bundles| && c.bundles[j] == e.bundle;
    assert BundleOk(c, j);
    forall g | g in r.out ensures g in SignAllowed(r.at, r.env) && g.CommitMsg? {
      assert SignedFrom(r.at, r.at.bundles[j]) == Some(g.signed);
    }
  }

  lemma BundleKept(net: multiset<SignEvent>, c: SignStored, env: Env, e: SignEvent, i: SignInputs)
    requires c in SignSound(env) && SignNetOk(net, c, env) && EnvOk(env) && e in net && e.BundleMsg?
    ensures SignHandle(c, env, e, i) in SignKept(net, e, c, env)
  {
    assert e in SignAllowed(c, env);
    var s := OnBundle(SignStoreAt(c, e.peer), env, e.peer, e.bundle);
    AtSignPeerOnly(c, e.peer, s);
    BundleCommits(c, env, e);
    QuietStep(net, c, env, e, AtSignPeer(c, e.peer, s), e.peer);
  }

  lemma CommitKept(net: multiset<SignEvent>, c: SignStored, env: Env, e: SignEvent, i: SignInputs)
    requires c in SignSound(env) && SignNetOk(net, c, env) && EnvOk(env) && e in net && e.CommitMsg?
    ensures SignHandle(c, env, e, i) in SignKept(net, e, c, env)
  {
    assert e in SignAllowed(c, env);
    var r := SignHandle(c, env, e, i);
    assert PairsAsked(r.out) == multiset{} && BundlesSent(r.out) == [];
    assert c.bundles + [] == c.bundles && c.asked + multiset{} == c.asked;
    assert Later(c, env, r.at, env, e.peer);
    SignedStable(c, env, r.at, env, e.peer, e.signed);
    QuietStep(net, c, env, e, r, e.peer);
  }
}
