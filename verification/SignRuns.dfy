/** Whole runs of a signing task, and exactly when all of them keep the wallet key's
    signature authentic. */
module SignRuns {
  import opened Types
  import opened SymbolicCrypto
  import opened KeyGenTypes
  import opened Environment
  import opened KeyGenResults
  import opened SignTypes
  import opened DelegatorSign
  import opened SignProtocol
  import opened SignInvariant
  import opened SignPeerSteps
  import opened SignSafety
  import opened SignResults
  import opened SignStages

  /** Where a run leads, if each of its actions can be taken. */
  ghost function SignAfter(t: SignTask, env: Env, actions: seq<SignAction>): Option<(SignTask, Env)> {
    if actions == [] then Some((t, env))
    else
      match SignAfter(t, env, actions[..|actions| - 1])
      case None => None
      case Some(s) =>
        var a := actions[|actions| - 1];
        if SignEnabled(s.0, a) then Some(SignNext(s.0, s.1, a)) else None
  }

  /** The states from which a task that is now (t, env) can come. */
  ghost predicate SignReached(t: SignTask, env: Env, t': SignTask, env': Env) {
    exists actions :: SignAfter(t, env, actions) == Some((t', env'))
  }

  lemma Onward(t: SignTask, env: Env, t': SignTask, env': Env, a: SignAction)
    requires SignReached(t, env, t', env') && SignEnabled(t', a)
    ensures var next := SignNext(t', env', a); SignReached(t, env, next.0, next.1)
  {
    var actions :| SignAfter(t, env, actions) == Some((t', env'));
    assert (actions + [a])[..|actions|] == actions;
    assert SignAfter(t, env, actions + [a]) == Some(SignNext(t', env', a));
  }

  lemma {:induction false} RunKeeps(t: SignTask, env: Env, actions: seq<SignAction>)
    requires SignInv(t, env) && EnvOk(env) && SignAfter(t, env, actions).Some?
    ensures var s := SignAfter(t, env, actions).value;
      SignInv(s.0, s.1) && EnvOk(s.1) && Grows(env, s.1) && Unmoved(t.at, s.0.at)
  {
    if actions != [] {
      var init := actions[..|actions| - 1];
      RunKeeps(t, env, init);
      var s := SignAfter(t, env, init).value;
      SignNextKeeps(s.0, s.1, actions[|actions| - 1]);
    }
  }

  // ---------------------------------------------------------------- one run, step by step

  lemma Exchange(e: SignEvent, f: SignEvent)
    ensures SignNetAfter(multiset{e}, e, [f]) == multiset{f}
    ensures SignNetAfter(multiset{e}, e, []) == multiset{}
  {
  }

  lemma {:induction false} NothingDrained(order: seq<nat>, candidates: map<nat, seq<Id>>)
    requires forall d :: d in candidates ==> candidates[d] == []
    ensures Drained(order, candidates) == []
  {
    if order != [] { NothingDrained(order[..|order| - 1], candidates); }
  }

  /** One message is under way; its handler sends one other. */
  lemma Forwards(t: SignTask, env: Env, e: SignEvent, f: SignEvent, i: SignInputs)
    requires t.net == multiset{e} && SignHandle(t.at, env, e, i).out == [f]
    requires SignEnabled(t, SignDeliver(e, i))
    ensures SignNext(t, env, SignDeliver(e, i)).0.net == multiset{f}
  {
    Exchange(e, f);
  }

  /** A peer offers itself; its offer is under way. */
  lemma OfferRun(item: SignItem, env: Env, p: Id, i: SignInputs) returns (t: SignTask, env': Env)
    requires i.delegates == [p] && IsOrderOf(i.order, item.slices.Keys) && IsOrderOf(i.queue, item.candidates.Keys)
    ensures SignReached(SignBegin(item), env, t, env')
    ensures t.net == multiset{SignRequestMsg(p, RsaPublic(env.nextKey))}
    ensures t.at.item == item.(state := FindingDeployments) && t.at.found == []
  {
    t, env' := SignBegin(item), env;
    assert SignAfter(t, env, []) == Some((t, env));
    var a := SignDeliver(SignDelegatesReply, i);
    assert OnSignDelegates(item, i.delegates).out == [SignProfileReply(p)];
    Forwards(t, env', SignDelegatesReply, SignProfileReply(p), i);
    Onward(SignBegin(item), env, t, env', a);
    t, env' := SignNext(t, env', a).0, SignNext(t, env', a).1;
    var candidate := SignCandidateMsg(p, SignRequestFor(t.at.item));
    a := SignDeliver(SignProfileReply(p), i);
    Forwards(t, env', SignProfileReply(p), candidate, i);
    Onward(SignBegin(item), env, t, env', a);
    t, env' := SignNext(t, env', a).0, SignNext(t, env', a).1;
    a := SignDeliver(candidate, i);
    Forwards(t, env', candidate, SignRequestMsg(p, RsaPublic(env'.nextKey)), i);
    Onward(SignBegin(item), env, t, env', a);
    t, env' := SignNext(t, env', a).0, SignNext(t, env', a).1;
  }

  lemma ReachedKeeps(t: SignTask, env: Env, t': SignTask, env': Env)
    requires SignInv(t, env) && EnvOk(env) && SignReached(t, env, t', env')
    ensures SignInv(t', env') && EnvOk(env') && Grows(env, env') && Unmoved(t.at, t'.at)
  {
    var actions :| SignAfter(t, env, actions) == Some((t', env'));
    RunKeeps(t, env, actions);
  }

  lemma ChosenStep(t: SignTask, env: Env, e: SignEvent, i: SignInputs)
    requires t.net == multiset{e} && e.ExecutorAttested? && SignEnabled(t, SignDeliver(e, i))
    requires t.at.item.executor == None && 1 <= t.at.item.info.exec.k && FoundSet(t.at.item) == {}
    requires forall d :: d in t.at.item.candidates ==> t.at.item.candidates[d] == []
    ensures var (t', env') := SignNext(t, env, SignDeliver(e, i));
      t'.net == multiset{} && t'.at.item.executor.Some? && t'.at.found == t.at.found && env' == env
  {
    NothingDrained(i.queue, t.at.item.candidates);
    var chosen := t.at.item.(executor := Some(NodeInfo(e.peer, e.pub)), candidates := map[]);
    assert FoundSet(chosen) == FoundSet(t.at.item);
    assert SignHandle(t.at, env, e, i).out == [];
    Exchange(e, e);
  }

  lemma RequestStep(t: SignTask, env: Env, p: Id, pub: RsaPublic, i: SignInputs)
    requires t.net == multiset{SignRequestMsg(p, pub)} && t.at.item.executor == None
    requires SignEnabled(t, SignDeliver(SignRequestMsg(p, pub), i))
    ensures var (t', env') := SignNext(t, env, SignDeliver(SignRequestMsg(p, pub), i));
      && t'.net == multiset{ExecutorAttested(p, pub)} && t'.at.item == t.at.item
      && t'.at.found == t.at.found && env' == env
  {
    Forwards(t, env, SignRequestMsg(p, pub), ExecutorAttested(p, pub), i);
  }

  /** The offer arrives, the attestation succeeds, and the peer becomes the executor. */
  lemma ExecutorRun(item: SignItem, env: Env, p: Id, i: SignInputs) returns (t: SignTask, env': Env)
    requires i.delegates == [p] && IsOrderOf(i.order, item.slices.Keys) && IsOrderOf(i.queue, item.candidates.Keys)
    requires item.executor == None && 1 <= item.info.exec.k
    requires (forall d :: d in item.candidates ==> item.candidates[d] == []) && FoundSet(item) == {}
    ensures SignReached(SignBegin(item), env, t, env')
    ensures t.net == multiset{} && t.at.item.executor.Some? && t.at.found == []
  {
    var t1, env1 := OfferRun(item, env, p, i);
    var pub := RsaPublic(env.nextKey);
    RequestStep(t1, env1, p, pub, i);
    Onward(SignBegin(item), env, t1, env1, SignDeliver(SignRequestMsg(p, pub), i));
    var (t2, env2) := SignNext(t1, env1, SignDeliver(SignRequestMsg(p, pub), i));
    assert FoundSet(t2.at.item) == FoundSet(item);
    ChosenStep(t2, env2, ExecutorAttested(p, pub), i);
    Onward(SignBegin(item), env, t2, env2, SignDeliver(ExecutorAttested(p, pub), i));
    var (t3, env3) := SignNext(t2, env2, SignDeliver(ExecutorAttested(p, pub), i));
    t, env' := t3, env3;
  }

  lemma AskStep(t: SignTask, env: Env, p: Id, d: nat)
    requires t.net == multiset{} && t.at.item.executor.Some? && !HasFound(t.at.item, d)
    ensures var (t', env') := SignNext(t, env, PinnerAttested(p, d));
      && t'.net == multiset{SliceQuery(p, d, t.at.item.executor.value.pub)} && SameBooksApart(t.at, t'.at) && env' == env
  {
    var query := SliceQuery(p, d, t.at.item.executor.value.pub);
    assert Attest(t.at, env, p, d).out == [query];
    assert BundlesSent([query][..0]) == [] && t.at.bundles + BundlesSent([query]) == t.at.bundles;
  }

  predicate SameBooksApart(c: SignStored, c': SignStored) {
    c'.item == c.item && c'.found == c.found && c'.bundles == c.bundles
  }

  lemma QueryStep(t: SignTask, env: Env, p: Id, d: nat, pub: RsaPublic, i: SignInputs)
    requires t.net == multiset{SliceQuery(p, d, pub)} && Payload(env, d).Some? && p == env.deployments[d].owner
    requires SignEnabled(t, SignDeliver(SliceQuery(p, d, pub), i))
    ensures var (t', env') := SignNext(t, env, SignDeliver(SliceQuery(p, d, pub), i));
      && t'.net == multiset{SliceReply(p, d, Rsa(pub, Payload(env, d).value))} && SameBooksApart(t.at, t'.at) && env' == env
  {
    Forwards(t, env, SliceQuery(p, d, pub), SliceReply(p, d, Rsa(pub, Payload(env, d).value)), i);
  }

  /** What a reply leaves: one more slice, and a bundle under way if one was sent. */
  ghost predicate Answers(c: SignStored, d: nat, t': SignTask)
    requires c.item.executor.Some?
  {
    && t'.at.found == c.found + [d] && t'.at.item.executor == c.item.executor
    && if t'.at.bundles == c.bundles then t'.net == multiset{}
       else exists b :: t'.at.bundles == c.bundles + [b]
                     && t'.net == multiset{BundleMsg(c.item.executor.value.peer, b)}
  }

  /** A pinner is attested for one more deployment, asked, and answers. */
  lemma AnswerRun(t0: SignTask, env0: Env, t: SignTask, env: Env, p: Id, d: nat, i: SignInputs) returns (t': SignTask)
    requires SignReached(t0, env0, t, env) && t.net == multiset{} && t.at.item.executor.Some?
    requires d in t.at.item.slices && !HasFound(t.at.item, d) && Payload(env, d).Some? && p == env.deployments[d].owner
    requires IsOrderOf(i.order, t.at.item.slices.Keys) && IsOrderOf(i.queue, t.at.item.candidates.Keys)
    ensures SignReached(t0, env0, t', env) && Answers(t.at, d, t')
  {
    var pub := t.at.item.executor.value.pub;
    AskStep(t, env, p, d);
    Onward(t0, env0, t, env, PinnerAttested(p, d));
    var (t1, env1) := SignNext(t, env, PinnerAttested(p, d));
    QueryStep(t1, env1, p, d, pub, i);
    Onward(t0, env0, t1, env1, SignDeliver(SliceQuery(p, d, pub), i));
    var (t2, env2) := SignNext(t1, env1, SignDeliver(SliceQuery(p, d, pub), i));
    var reply := SliceReply(p, d, Rsa(pub, Payload(env, d).value));
    ReplyStep(t2, env2, reply, i);
    Onward(t0, env0, t2, env2, SignDeliver(reply, i));
    var (t3, env3) := SignNext(t2, env2, SignDeliver(reply, i));
    t' := t3;
  }

  lemma ReplyStep(t: SignTask, env: Env, e: SignEvent, i: SignInputs)
    requires t.net == multiset{e} && e.SliceReply? && t.at.item.executor.Some?
    requires e.deployment in t.at.item.slices && !HasFound(t.at.item, e.deployment)
    requires SignEnabled(t, SignDeliver(e, i))
    ensures var (t', env') := SignNext(t, env, SignDeliver(e, i)); Answers(t.at, e.deployment, t') && env' == env
  {
    var r := SignHandle(t.at, env, e, i);
    if r.out == [] {
      assert t.at.bundles + BundlesSent([]) == t.at.bundles;
      Exchange(e, e);
    } else {
      var b := r.out[0].bundle;
      assert r.out == [BundleMsg(t.at.item.executor.value.peer, b)];
      assert BundlesSent(r.out) == [b];
      Exchange(e, r.out[0]);
    }
  }

  /** The slices of the first j ids have been asked for and have come. */
  ghost predicate HasAsked(t: SignTask, ids: seq<nat>, j: nat) {
    && t.net == multiset{} && t.at.item.executor.Some?
    && j <= |ids| && t.at.found == ids[..j]
  }

  lemma {:induction false} SlicesRun(t0: SignTask, env0: Env, t: SignTask, env: Env, ids: seq<nat>, j: nat)
    returns (t': SignTask)
    requires SignInv(t0, env0) && EnvOk(env0) && SignReached(t0, env0, t, env) && HasAsked(t, ids, 0)
    requires IsOrderOf(ids, t0.at.item.slices.Keys) && forall d :: d in ids ==> Payload(env, d).Some?
    requires j <= |ids| && j < t0.at.item.info.exec.k
    ensures SignReached(t0, env0, t', env) && HasAsked(t', ids, j)
  {
    t' := t;
    if j != 0 {
      var t1 := SlicesRun(t0, env0, t, env, ids, j - 1);
      t' := OneMore(t0, env0, t1, env, ids, j - 1);
      ReachedKeeps(t0, env0, t', env);
      assert t'.at in SignSound(env);
    }
  }

  lemma StillOpen(t: SignTask, env: Env, ids: seq<nat>, j: nat)
    requires SignInv(t, env) && HasAsked(t, ids, j) && Distinct(ids)
    requires j < |ids| && j < t.at.item.info.exec.k
    ensures !HasFound(t.at.item, ids[j]) && t.at.item.candidates == map[] && t.at.bundles == []
  {
    assert t.at in SignSound(env);
    assert ids[j] !in ids[..j];
  }

  lemma FirstBundle(c: SignStored, t': SignTask, env: Env, d: nat)
    requires SignInv(t', env) && c.item.executor.Some? && c.bundles == [] && Answers(c, d, t')
    ensures |t'.at.found| < t'.at.item.info.exec.k ==> t'.net == multiset{}
    ensures |t'.at.found| == t'.at.item.info.exec.k ==>
      |t'.at.bundles| == 1 && t'.net == multiset{BundleMsg(t'.at.item.executor.value.peer, t'.at.bundles[0])}
  {
    assert t'.at in SignSound(env);
  }

  lemma OneMore(t0: SignTask, env0: Env, t: SignTask, env: Env, ids: seq<nat>, j: nat) returns (t': SignTask)
    requires SignInv(t0, env0) && EnvOk(env0) && SignReached(t0, env0, t, env) && HasAsked(t, ids, j)
    requires IsOrderOf(ids, t0.at.item.slices.Keys) && forall d :: d in ids ==> Payload(env, d).Some?
    requires j < |ids| && j < t0.at.item.info.exec.k
    ensures SignReached(t0, env0, t', env) && t'.at.found == ids[..j + 1] && t'.at.item.executor.Some?
    ensures if j + 1 < t0.at.item.info.exec.k then t'.net == multiset{}
            else |t'.at.bundles| == 1 && t'.net == multiset{BundleMsg(t'.at.item.executor.value.peer, t'.at.bundles[0])}
  {
    assert ids[..j] + [ids[j]] == ids[..j + 1];
    ReachedKeeps(t0, env0, t, env);
    StillOpen(t, env, ids, j);
    var none: seq<nat> := [];
    assert t.at.item.candidates.Keys == Elements(none) && ids[j] in Elements(ids);
    t' := AnswerRun(t0, env0, t, env, env.deployments[ids[j]].owner, ids[j], SignInputs([], ids, none));
    ReachedKeeps(t0, env0, t', env);
    FirstBundle(t.at, t', env, ids[j]);
  }

  /** The executor opens the bundle, recovers, signs and commits. */
  lemma BundleStep(t: SignTask, env: Env, p: Id, b: Bundle, i: SignInputs)
    requires SignInv(t, env) && t.net == multiset{BundleMsg(p, b)} && b in t.at.bundles && t.at.item.executor.Some?
    requires p == t.at.item.executor.value.peer && SignedFrom(t.at, b).Some?
    requires SignEnabled(t, SignDeliver(BundleMsg(p, b), i))
    ensures var t' := SignNext(t, env, SignDeliver(BundleMsg(p, b), i)).0;
      && t'.net == multiset{CommitMsg(p, SignedFrom(t.at, b).value)}
      && t'.at.item == t.at.item && t'.at.found == t.at.found
  {
    assert t.at in SignSound(env);
    var n :| 0 <= n < |t.at.bundles| && t.at.bundles[n] == b;
    assert BundleOk(t.at, n);
    Forwards(t, env, BundleMsg(p, b), CommitMsg(p, SignedFrom(t.at, b).value), i);
  }

  // ---------------------------------------------------------------- integrity of all runs

  /** Every commit under way or arrived is the one layer 1 is waiting for. */
  ghost predicate AllAuthentic(t: SignTask, p2: Data)
    requires p2.PublicOf?
  {
    && (forall v :: v in t.at.commits ==> v == Authentic(t.at, p2))
    && (forall p, v :: CommitMsg(p, v) in t.net ==> v == Authentic(t.at, p2))
  }

  ghost predicate AlwaysAuthentic(t: SignTask, env: Env, p2: Data)
    requires p2.PublicOf?
  {
    forall actions :: SignAfter(t, env, actions).Some? ==> AllAuthentic(SignAfter(t, env, actions).value.0, p2)
  }

  /** The commit is under way, made from the slices of the first k ids. */
  ghost predicate Committing(t: SignTask, p: Id, v: Data, ids: seq<nat>) {
    && t.net == multiset{CommitMsg(p, v)} && t.at.item.executor.Some?
    && t.at.item.info.exec.k <= |ids| && t.at.found == ids[..t.at.item.info.exec.k]
  }

  /** A run to the commit: one executor, the owners of k deployments one after the other,
      one bundle. */
  lemma CommitRun(t0: SignTask, env0: Env, me: Id, ids: seq<nat>, p2: Data, n: nat, t: nat)
    returns (t': SignTask, env: Env, p: Id, v: Data)
    requires t0 == SignBegin(t0.at.item) && SignInv(t0, env0) && EnvOk(env0)
    requires IsOrderOf(ids, t0.at.item.slices.Keys) && IsOrderOf(ids, t0.at.item.candidates.Keys)
    requires t0.at.item.executor == None && FoundSet(t0.at.item) == {}
    requires forall d :: d in t0.at.item.candidates ==> t0.at.item.candidates[d] == []
    requires SharesBehind(env0, p2, ids, n, t) && 1 <= t0.at.item.info.exec.k <= |ids|
    ensures SignReached(t0, env0, t', env) && Committing(t', p, v, ids)
    ensures Unmoved(t0.at, t'.at)
    ensures v == Authentic(t'.at, p2) <==> t <= t0.at.item.info.exec.k
  {
    var t1, env1 := ExecutorRun(t0.at.item, env0, me, SignInputs([me], ids, ids));
    t', env, p, v := FromExecutor(t0, env0, t1, env1, ids, p2, n, t);
  }

  lemma ToBundle(t0: SignTask, env0: Env, t1: SignTask, env1: Env, ids: seq<nat>) returns (t': SignTask)
    requires SignInv(t0, env0) && EnvOk(env0) && SignReached(t0, env0, t1, env1) && HasAsked(t1, ids, 0)
    requires IsOrderOf(ids, t0.at.item.slices.Keys) && forall d :: d in ids ==> Payload(env1, d).Some?
    requires 1 <= t0.at.item.info.exec.k <= |ids|
    ensures SignReached(t0, env0, t', env1)
    ensures t'.at.item.executor.Some? && |t'.at.bundles| == 1 && t'.at.found == ids[..t0.at.item.info.exec.k]
    ensures t'.net == multiset{BundleMsg(t'.at.item.executor.value.peer, t'.at.bundles[0])}
  {
    var k := t0.at.item.info.exec.k;
    var t2 := SlicesRun(t0, env0, t1, env1, ids, k - 1);
    t' := OneMore(t0, env0, t2, env1, ids, k - 1);
  }

  lemma FromExecutor(t0: SignTask, env0: Env, t1: SignTask, env1: Env, ids: seq<nat>, p2: Data, n: nat, t: nat)
    returns (t': SignTask, env: Env, p: Id, v: Data)
    requires SignInv(t0, env0) && EnvOk(env0) && SignReached(t0, env0, t1, env1) && HasAsked(t1, ids, 0)
    requires IsOrderOf(ids, t0.at.item.slices.Keys)
    requires SharesBehind(env0, p2, ids, n, t) && 1 <= t0.at.item.info.exec.k <= |ids|
    ensures SignReached(t0, env0, t', env) && Committing(t', p, v, ids)
    ensures Unmoved(t0.at, t'.at)
    ensures v == Authentic(t'.at, p2) <==> t <= t0.at.item.info.exec.k
  {
    ReachedKeeps(t0, env0, t1, env1);
    SharesStay(env0, env1, p2, ids, n, t);
    var t3 := ToBundle(t0, env0, t1, env1, ids);
    ReachedKeeps(t0, env0, t3, env1);
    p, v := FromBundle(t3, env1, ids, p2, n, t);
    var a := SignDeliver(BundleMsg(p, t3.at.bundles[0]), SignInputs([], ids, []));
    Onward(t0, env0, t3, env1, a);
    t', env := SignNext(t3, env1, a).0, SignNext(t3, env1, a).1;
    ReachedKeeps(t0, env0, t', env);
  }

  lemma FromBundle(t: SignTask, env: Env, ids: seq<nat>, p2: Data, n: nat, threshold: nat) returns (p: Id, v: Data)
    requires SignInv(t, env) && t.at.item.executor.Some? && |t.at.bundles| == 1
    requires t.net == multiset{BundleMsg(t.at.item.executor.value.peer, t.at.bundles[0])}
    requires IsOrderOf(ids, t.at.item.slices.Keys)
    requires SharesBehind(env, p2, ids, n, threshold) && 1 <= t.at.item.info.exec.k
    ensures p == t.at.item.executor.value.peer
    ensures var a := SignDeliver(BundleMsg(p, t.at.bundles[0]), SignInputs([], ids, []));
      && SignEnabled(t, a)
      && var t' := SignNext(t, env, a).0;
         && t'.net == multiset{CommitMsg(p, v)} && t'.at.item == t.at.item && t'.at.found == t.at.found
         && (v == Authentic(t'.at, p2) <==> threshold <= t.at.item.info.exec.k)
  {
    p := t.at.item.executor.value.peer;
    assert t.at in SignSound(env);
    forall d | d in t.at.item.slices ensures d in ids { assert d in Elements(ids); }
    BundleRecovers(t.at, env, p2, ids, n, threshold, 0);
    v := SignedFrom(t.at, t.at.bundles[0]).value;
    var none: seq<nat> := [];
    assert t.at.item.candidates.Keys == Elements(none);
    BundleStep(t, env, p, t.at.bundles[0], SignInputs([], ids, []));
  }

  /** A task that asks for fewer slices than the key needs has a run to a wrong commit. */
  lemma ForgedRun(e: SignEventData, nonce: Data, exec: ExecInfo, ids: seq<nat>, env: Env, me: Id,
                  p2: Data, n: nat, t: nat) returns (t': SignTask, env': Env)
    requires EnvOk(env) && SharesBehind(env, p2, ids, n, t)
    requires 1 <= exec.k < t <= n
    ensures SignReached(SignBegin(SignStarted(e, nonce, exec, ids)), env, t', env')
    ensures !AllAuthentic(t', p2) && t'.at.item.info.exec == exec
  {
    var t0 := SignBegin(SignStarted(e, nonce, exec, ids));
    SignBeginSound(e, nonce, exec, ids, env);
    var p, v;
    t', env', p, v := CommitRun(t0, env, me, ids, p2, n, t);
    assert CommitMsg(p, v) in t'.net;
  }

  /** Integrity of signing, exactly: for an account whose key was shared with threshold t,
      everything that any run of the task commits is authentic if and only if the task
      asks the executor for at least t slices. */
  lemma SignaturesAuthenticIff(e: SignEventData, nonce: Data, exec: ExecInfo, ids: seq<nat>,
                               env: Env, p2: Data, n: nat, t: nat)
    requires EnvOk(env) && SharesBehind(env, p2, ids, n, t)
    requires 1 <= exec.k && t <= n
    ensures AlwaysAuthentic(SignBegin(SignStarted(e, nonce, exec, ids)), env, p2) <==> t <= exec.k
  {
    var t0 := SignBegin(SignStarted(e, nonce, exec, ids));
    SignBeginSound(e, nonce, exec, ids, env);
    if t <= exec.k {
      forall actions | SignAfter(t0, env, actions).Some?
        ensures AllAuthentic(SignAfter(t0, env, actions).value.0, p2)
      {
        RunAuthentic(t0, env, actions, ids, p2, n, t);
      }
    } else {
      var t', env' := ForgedRun(e, nonce, exec, ids, env, [0], p2, n, t);
      var actions :| SignAfter(t0, env, actions) == Some((t', env'));
      assert !AllAuthentic(SignAfter(t0, env, actions).value.0, p2);
    }
  }

  lemma RunAuthentic(t0: SignTask, env: Env, actions: seq<SignAction>, ids: seq<nat>, p2: Data, n: nat, t: nat)
    requires SignInv(t0, env) && EnvOk(env) && SharesBehind(env, p2, ids, n, t)
    requires forall d :: d in t0.at.item.slices ==> d in ids
    requires 1 <= t0.at.item.info.exec.k && t <= t0.at.item.info.exec.k
    requires SignAfter(t0, env, actions).Some?
    ensures AllAuthentic(SignAfter(t0, env, actions).value.0, p2)
  {
    RunKeeps(t0, env, actions);
    var (t', env') := SignAfter(t0, env, actions).value;
    SharesStay(env, env', p2, ids, n, t);
    SoundAuthentic(t', env', ids, p2, n, t);
  }

  lemma SoundAuthentic(t: SignTask, env: Env, ids: seq<nat>, p2: Data, n: nat, threshold: nat)
    requires SignInv(t, env) && SharesBehind(env, p2, ids, n, threshold)
    requires forall d :: d in t.at.item.slices ==> d in ids
    requires 1 <= t.at.item.info.exec.k && threshold <= t.at.item.info.exec.k
    ensures AllAuthentic(t, p2)
  {
    forall v | v in t.at.commits ensures v == Authentic(t.at, p2) {
      CommitsAuthentic(t, env, p2, ids, n, threshold, v);
    }
    forall p, v | CommitMsg(p, v) in t.net ensures v == Authentic(t.at, p2) {
      CommitsAuthentic(t, env, p2, ids, n, threshold, v);
    }
  }

  /** With the parameters that the delegator really uses, only accounts of which a single
      slice is enough are signed for faithfully. */
  lemma FixedParametersAuthenticIff(e: SignEventData, nonce: Data, ids: seq<nat>, env: Env, p2: Data, n: nat, t: nat)
    requires EnvOk(env) && SharesBehind(env, p2, ids, n, t) && 1 <= t <= n
    ensures AlwaysAuthentic(SignBegin(SignStarted(e, nonce, FIXED_EXEC, ids)), env, p2) <==> t == 1
  {
    SignaturesAuthenticIff(e, nonce, FIXED_EXEC, ids, env, p2, n, t);
  }

  // ---------------------------------------------------------------- a slice that comes late

  lemma CommitStep(t: SignTask, env: Env, p: Id, v: Data, i: SignInputs)
    requires t.net == multiset{CommitMsg(p, v)} && SignEnabled(t, SignDeliver(CommitMsg(p, v), i))
    ensures var t' := SignNext(t, env, SignDeliver(CommitMsg(p, v), i)).0;
      && t'.net == multiset{} && t'.at.item == t.at.item.(state := CommitResult) && t'.at.found == t.at.found
      && SignNext(t, env, SignDeliver(CommitMsg(p, v), i)).1 == env
  {
    Exchange(CommitMsg(p, v), CommitMsg(p, v));
  }

  /** After the commit the owner of one more deployment is attested, asked, and answers. */
  lemma LateRun(t0: SignTask, env0: Env, t: SignTask, env: Env, ids: seq<nat>, p: Id, v: Data, i: SignInputs)
    returns (t': SignTask, reply: SignEvent)
    requires SignReached(t0, env0, t, env) && SignInv(t, env) && Committing(t, p, v, ids)
    requires IsOrderOf(ids, t.at.item.slices.Keys) && t.at.item.info.exec.k < |ids|
    requires Payload(env, ids[t.at.item.info.exec.k]).Some?
    requires IsOrderOf(i.order, t.at.item.slices.Keys) && IsOrderOf(i.queue, t.at.item.candidates.Keys)
    ensures SignReached(t0, env0, t', env) && SignEnabled(t', SignDeliver(reply, i))
    ensures Reopens(t'.at, SignDeliver(reply, i))
  {
    var d := ids[t.at.item.info.exec.k];
    assert d in Elements(ids) && d !in ids[..t.at.item.info.exec.k];
    assert t.at in SignSound(env) && !HasFound(t.at.item, d);
    CommitStep(t, env, p, v, i);
    Onward(t0, env0, t, env, SignDeliver(CommitMsg(p, v), i));
    var t1 := SignNext(t, env, SignDeliver(CommitMsg(p, v), i)).0;
    var q, pub := env.deployments[d].owner, t.at.item.executor.value.pub;
    AskStep(t1, env, q, d);
    Onward(t0, env0, t1, env, PinnerAttested(q, d));
    var t2 := SignNext(t1, env, PinnerAttested(q, d)).0;
    QueryStep(t2, env, q, d, pub, i);
    Onward(t0, env0, t2, env, SignDeliver(SliceQuery(q, d, pub), i));
    t' := SignNext(t2, env, SignDeliver(SliceQuery(q, d, pub), i)).0;
    reply := SliceReply(q, d, Rsa(pub, Payload(env, d).value));
  }

  /** A task that asks for fewer slices than there are has a run that takes its stage back. */
  lemma ReopenRun(e: SignEventData, nonce: Data, exec: ExecInfo, ids: seq<nat>, env: Env, me: Id,
                  p2: Data, n: nat, t: nat) returns (t': SignTask, env': Env, a: SignAction)
    requires EnvOk(env) && SharesBehind(env, p2, ids, n, t) && 1 <= exec.k < n
    ensures SignReached(SignBegin(SignStarted(e, nonce, exec, ids)), env, t', env')
    ensures SignEnabled(t', a) && Reopens(t'.at, a) && t'.at.item.info.exec == exec
  {
    var t0 := SignBegin(SignStarted(e, nonce, exec, ids));
    SignBeginSound(e, nonce, exec, ids, env);
    var t1, env1, p, v := CommitRun(t0, env, me, ids, p2, n, t);
    ReachedKeeps(t0, env, t1, env1);
    SharesStay(env, env1, p2, ids, n, t);
    assert ids[exec.k] in ids && t1.at in SignSound(env1);
    var none: seq<nat> := [];
    assert t1.at.item.candidates.Keys == Elements(none);
    var reply;
    t', reply := LateRun(t0, env, t1, env1, ids, p, v, SignInputs([], ids, none));
    env', a := env1, SignDeliver(reply, SignInputs([], ids, none));
    ReachedKeeps(t0, env, t', env');
  }
}
