/** What the signing invariant means: how often the executor is sent slices, what it can
    recover from them, and that nobody who was attested is forgotten. */
module SignResults {
  import opened Types
  import opened SymbolicCrypto
  import opened KeyGenTypes
  import opened Environment
  import opened KeyGenResults
  import opened SignTypes
  import opened DelegatorSign
  import opened PeerSign
  import opened SignProtocol
  import opened SignInvariant
  import opened SignBookSteps

  // ---------------------------------------------------------------- bundles

  lemma {:induction false} CollectedIs(order: seq<nat>, slices: map<nat, Option<KeySliceInfo>>)
    requires forall d :: d in order ==> d in slices && slices[d].Some?
    ensures |Collected(order, slices)| == |order|
    ensures forall j :: 0 <= j < |order| ==> Collected(order, slices)[j] == slices[order[j]].value.slice
  {
    if order != [] {
      assert order[|order| - 1] in order;
      assert forall d :: d in order[..|order| - 1] ==> d in order;
      CollectedIs(order[..|order| - 1], slices);
    }
  }

  /** The first m deployments that answered, and what they sent. */
  lemma FirstFound(c: SignStored, env: Env, m: nat)
    requires c in SignSound(env) && m <= |c.found|
    ensures forall d :: d in c.found[..m] ==> HasFound(c.item, d)
    ensures |Collected(c.found[..m], c.item.slices)| == m
    ensures forall j :: 0 <= j < m ==> HasFound(c.item, c.found[j])
    ensures forall j :: 0 <= j < m ==>
      Collected(c.found[..m], c.item.slices)[j] == c.item.slices[c.found[j]].value.slice
  {
    forall d | d in c.found[..m] ensures HasFound(c.item, d) {
      assert d in c.found;
    }
    forall j | 0 <= j < m ensures HasFound(c.item, c.found[j]) {
      assert c.found[j] in c.found;
    }
    CollectedIs(c.found[..m], c.item.slices);
  }

  /** Exactly one bundle goes out for every slice from the k-th on; the i-th carries k + i
      slices, those of the first k + i deployments that answered, and contains every
      earlier bundle properly. */
  lemma SendCount(t: SignTask, env: Env)
    requires SignInv(t, env)
    ensures var c, k := t.at, t.at.item.info.exec.k;
      && (c.item.executor.Some? ==> |c.bundles| == Sends(|c.found|, k))
      && (c.item.executor.None? ==> c.bundles == [] && c.found == [])
      && Distinct(c.found)
      && (forall i :: 0 <= i < |c.bundles| ==> |c.bundles[i].slices| == k + i <= |c.found|)
      && (forall i, j :: 0 <= i < j < |c.bundles| ==> multiset(c.bundles[i].slices) < multiset(c.bundles[j].slices))
  {
    var c, k := t.at, t.at.item.info.exec.k;
    assert c in SignSound(env);
    if c.item.executor.None? { NothingFoundYet(c, env); }
    forall i | 0 <= i < |c.bundles| ensures |c.bundles[i].slices| == k + i <= |c.found| {
      BundleSize(c, env, i);
    }
    forall i, j | 0 <= i < j < |c.bundles|
      ensures multiset(c.bundles[i].slices) < multiset(c.bundles[j].slices)
    {
      BundlesNest(c, env, i, j);
    }
  }

  lemma BundleSize(c: SignStored, env: Env, i: nat)
    requires c in SignSound(env) && i < |c.bundles|
    ensures |c.bundles[i].slices| == c.item.info.exec.k + i <= |c.found|
  {
    assert BundleOk(c, i);
    FirstFound(c, env, c.item.info.exec.k + i);
    assert |multiset(c.bundles[i].slices)| == |multiset(Collected(c.found[..c.item.info.exec.k + i], c.item.slices))|;
  }

  lemma BundlesGrow(c: SignStored, env: Env, i: nat, j: nat)
    requires c in SignSound(env) && i < j < |c.bundles|
    ensures multiset(c.bundles[i].slices) <= multiset(c.bundles[j].slices)
  {
    var k := c.item.info.exec.k;
    assert BundleOk(c, i) && BundleOk(c, j);
    var a, b := c.found[..k + i], c.found[k + i..k + j];
    assert c.found[..k + j] == a + b;
    CollectedConcat(a, b, c.item.slices);
  }

  lemma BundlesNest(c: SignStored, env: Env, i: nat, j: nat)
    requires c in SignSound(env) && i < j < |c.bundles|
    ensures multiset(c.bundles[i].slices) < multiset(c.bundles[j].slices)
  {
    BundlesGrow(c, env, i, j);
    BundleSize(c, env, i);
    BundleSize(c, env, j);
    assert |multiset(c.bundles[i].slices)| != |multiset(c.bundles[j].slices)|;
  }

  // ---------------------------------------------------------------- recovery

  /** What the executor reads in the i-th bundle is different slices of the one sharing. */
  lemma {:induction false} OpensAll(key: nat, slices: seq<Data>)
    requires forall s :: s in slices ==> s.Rsa? && s.pub == RsaPublic(key)
    ensures Opened(Some(RsaPrivate(key)), slices).Some?
    ensures var xs := Opened(Some(RsaPrivate(key)), slices).value;
      |xs| == |slices| && forall j :: 0 <= j < |xs| ==> slices[j] == Rsa(RsaPublic(key), xs[j])
  {
    if slices != [] {
      var last := |slices| - 1;
      assert slices[last] in slices && forall s :: s in slices[..last] ==> s in slices;
      OpensAll(key, slices[..last]);
    }
  }

  /** The first m slices that came are different, and each closes a share for the executor. */
  lemma FoundShares(c: SignStored, env: Env, p2: Data, ids: seq<nat>, n: nat, t: nat, m: nat)
    requires c in SignSound(env) && SharesBehind(env, p2, ids, n, t) && m <= |c.found|
    requires forall d :: d in c.item.slices ==> d in ids
    ensures var slices := Collected(c.found[..m], c.item.slices);
      && Distinct(slices)
      && (slices != [] ==> c.item.executor.Some?)
      && (forall s :: s in slices ==>
            s.Rsa? && s.pub == c.item.executor.value.pub && OneSharing(p2.secret, n, t, [s.payload]))
  {
    FirstFound(c, env, m);
    var slices := Collected(c.found[..m], c.item.slices);
    forall j | 0 <= j < m ensures ForExecutor(c, env, c.found[j], slices[j]) && c.found[j] in ids {
      assert c.found[j] in c.found && HasFound(c.item, c.found[j]);
    }
    forall j, l | 0 <= j < l < m ensures slices[j] != slices[l] {
      assert c.found[j] != c.found[l];
    }
  }

  /** So are those of a bundle. */
  lemma BundleShares(c: SignStored, env: Env, p2: Data, ids: seq<nat>, n: nat, t: nat, i: nat)
    requires c in SignSound(env) && SharesBehind(env, p2, ids, n, t) && i < |c.bundles|
    requires forall d :: d in c.item.slices ==> d in ids
    ensures c.item.executor.Some? && Distinct(c.bundles[i].slices)
    ensures forall s :: s in c.bundles[i].slices ==>
      s.Rsa? && s.pub == c.item.executor.value.pub && OneSharing(p2.secret, n, t, [s.payload])
  {
    assert BundleOk(c, i);
    var m := c.item.info.exec.k + i;
    FoundShares(c, env, p2, ids, n, t, m);
    var slices := Collected(c.found[..m], c.item.slices);
    DistinctIsOnce(slices);
    DistinctIsOnce(c.bundles[i].slices);
    forall s | s in c.bundles[i].slices ensures s in slices {
      assert s in multiset(c.bundles[i].slices) && s in multiset(slices);
    }
  }

  /** The witness that layer 1 is waiting for. */
  function Authentic(c: SignStored, p2: Data): Data
    requires p2.PublicOf?
  {
    WitnessOf(c.item.info.exec, c.item.info.exec.taskType, p2.secret, c.item.transaction)
  }

  /** From its i-th bundle the executor recovers the wallet key exactly when k + i, the
      number of slices in it, reaches the threshold t of the sharing; and for k >= 1 it
      always signs with something. */
  lemma BundleRecovers(c: SignStored, env: Env, p2: Data, ids: seq<nat>, n: nat, t: nat, i: nat)
    requires c in SignSound(env) && SharesBehind(env, p2, ids, n, t) && i < |c.bundles|
    requires forall d :: d in c.item.slices ==> d in ids
    requires 1 <= c.item.info.exec.k
    ensures c.item.executor.Some? && SignedFrom(c, c.bundles[i]).Some?
    ensures SignedFrom(c, c.bundles[i]) == Some(Authentic(c, p2)) <==> t <= c.item.info.exec.k + i
  {
    BundleShares(c, env, p2, ids, n, t, i);
    BundleSize(c, env, i);
    var slices := c.bundles[i].slices;
    var key := c.item.executor.value.pub.id;
    OpensAll(key, slices);
    var xs := Opened(Some(RsaPrivate(key)), slices).value;
    forall j | 0 <= j < |xs| ensures OneSharing(p2.secret, n, t, [xs[j]]) {
      assert slices[j] in slices;
    }
    forall x | x in xs ensures x.Share? && x.secret == p2.secret && x.n == n && x.k == t {
      var j :| 0 <= j < |xs| && xs[j] == x;
      assert x in [xs[j]];
    }
    RecoveryExact(c.item.info.exec.k, p2.secret.id, n, t, xs);
  }

  /** Integrity of one signing task: every commit that is under way or has arrived carries
      the signature of the transaction under the key that was reported for the account,
      provided the task asks for at least the threshold of the sharing. */
  lemma CommitsAuthentic(t: SignTask, env: Env, p2: Data, ids: seq<nat>, n: nat, k: nat, w: Data)
    requires SignInv(t, env) && SharesBehind(env, p2, ids, n, k)
    requires forall d :: d in t.at.item.slices ==> d in ids
    requires 1 <= t.at.item.info.exec.k && k <= t.at.item.info.exec.k
    requires w in t.at.commits || exists p :: CommitMsg(p, w) in t.net
    ensures w == Authentic(t.at, p2)
  {
    var c := t.at;
    assert c in SignSound(env);
    if w !in c.commits {
      var p :| CommitMsg(p, w) in t.net;
      assert CommitMsg(p, w) in SignAllowed(c, env);
    }
    assert Signed(c, w);
    var i :| 0 <= i < |c.bundles| && SignedFrom(c, c.bundles[i]) == Some(w);
    BundleRecovers(c, env, p2, ids, n, k, i);
  }

  /** The bound is exact: once a bundle is out, all that can be committed is authentic if
      and only if the task's threshold reaches that of the sharing. */
  lemma AuthenticIff(c: SignStored, env: Env, p2: Data, ids: seq<nat>, n: nat, t: nat)
    requires c in SignSound(env) && SharesBehind(env, p2, ids, n, t) && c.bundles != []
    requires forall d :: d in c.item.slices ==> d in ids
    requires 1 <= c.item.info.exec.k
    ensures c.item.executor.Some?
    ensures (forall i :: 0 <= i < |c.bundles| ==> SignedFrom(c, c.bundles[i]) == Some(Authentic(c, p2)))
        <==> t <= c.item.info.exec.k
  {
    forall i | 0 <= i < |c.bundles|
      ensures c.item.executor.Some?
        && (SignedFrom(c, c.bundles[i]) == Some(Authentic(c, p2)) <==> t <= c.item.info.exec.k + i)
    {
      BundleRecovers(c, env, p2, ids, n, t, i);
    }
    assert c.bundles[0] == c.bundles[0];
  }

  /** The executor's handler meets no error: it has its item and its key, every slice
      opens, recovery gets as many as it asks for; so the witness goes out, and the item is
      left as executed. */
  lemma BundleHandled(t: SignTask, env: Env, p2: Data, ids: seq<nat>, n: nat, k: nat, p: Id, b: Bundle)
    requires SignInv(t, env) && SharesBehind(env, p2, ids, n, k) && BundleMsg(p, b) in t.net
    requires forall d :: d in t.at.item.slices ==> d in ids
    requires 1 <= t.at.item.info.exec.k
    ensures var c := t.at;
      var o := OnBundle(SignStoreAt(c, p), env, p, b);
      && o.ok && o.env == env && c.item.executor.Some? && SignedFrom(c, b).Some?
      && o.out == [CommitMsg(p, SignedFrom(c, b).value)]
      && o.store == SignStore(Some(ExecutorItem(c.item.info, ExecExecuted)), SignStoreAt(c, p).rsa)
  {
    var c := t.at;
    assert BundleMsg(p, b) in SignAllowed(c, env) && c in SignSound(env);
    var i :| 0 <= i < |c.bundles| && c.bundles[i] == b;
    BundleRecovers(c, env, p2, ids, n, k, i);
    assert BundleOk(c, i);
  }

  // ---------------------------------------------------------------- the right executor

  /** Whatever asks for a slice, carries one or keeps one is made out to the one executor,
      who still has the private half. */
  lemma ForTheRightExecutor(t: SignTask, env: Env)
    requires SignInv(t, env)
    ensures ExecutorHolds(t.at)
    ensures forall e :: e in t.net && e.SliceQuery? ==>
      t.at.item.executor.Some? && e.pub == t.at.item.executor.value.pub
    ensures forall e :: e in t.net && e.SliceReply? ==> ForExecutor(t.at, env, e.deployment, e.slice)
    ensures forall d :: HasFound(t.at.item, d) ==> ForExecutor(t.at, env, d, t.at.item.slices[d].value.slice)
  {
    assert t.at in SignSound(env);
    forall e | e in t.net ensures e in SignAllowed(t.at, env) { }
  }

  // ---------------------------------------------------------------- the offers

  lemma AttestingIsQuiet(out: seq<SignEvent>)
    requires |out| <= 1 && forall g :: g in out ==> g.ExecutorAttested?
    ensures PairsAsked(out) == multiset{} && BundlesSent(out) == []
  {
    if out != [] {
      assert out[0] in out && out[..0] == [];
    }
  }

  lemma OfferOnNet(net: multiset<SignEvent>, p: Id, pub: RsaPublic)
    requires SignNetShape(net) && SignRequestMsg(p, pub) in net
    ensures ExecutorAttested(p, pub) !in net
  {
    assert Invitee(SignRequestMsg(p, pub)) == Some(p) == Invitee(ExecutorAttested(p, pub));
  }

  lemma OfferStored(c: SignStored, env: Env, p: Id, pub: RsaPublic, i: SignInputs)
    ensures SignHandle(c, env, SignRequestMsg(p, pub), i) == SignEffect(c, env, OnSignRequest(c.item, p, pub).out)
  {
    AttestingIsQuiet(OnSignRequest(c.item, p, pub).out);
    assert c.bundles + [] == c.bundles && c.asked + multiset{} == c.asked;
  }

  /** An offer to execute changes nothing that is stored. It is attested while there is no
      executor, and without any effect from then on. */
  lemma OfferAttested(t: SignTask, env: Env, p: Id, pub: RsaPublic, i: SignInputs)
    requires SignInv(t, env) && SignEnabled(t, SignDeliver(SignRequestMsg(p, pub), i))
    ensures var t' := SignNext(t, env, SignDeliver(SignRequestMsg(p, pub), i)).0;
      && t'.at == t.at
      && t'.net - multiset{ExecutorAttested(p, pub)} == t.net - multiset{SignRequestMsg(p, pub)}
      && (ExecutorAttested(p, pub) in t'.net <==> t.at.item.executor.None?)
  {
    OfferStored(t.at, env, p, pub, i);
    OfferOnNet(t.net, p, pub);
  }

  // ---------------------------------------------------------------- the queue

  /** Who is taken up: a pinner attested for a deployment that has not answered yet, once
      there is an executor or if the deployment is one of the task's. It is asked at once if
      there is an executor, and otherwise comes last in the queue of its deployment. */
  lemma PinnerTakenUp(t: SignTask, env: Env, p: Id, d: nat)
    requires SignInv(t, env)
    ensures var c, t' := t.at, SignNext(t, env, PinnerAttested(p, d)).0;
      var asks := !HasFound(c.item, d) && c.item.executor.Some?;
      var waits := c.item.executor.None? && d in c.item.slices;
      && t'.at.accepted == c.accepted + (if asks || waits then multiset{(p, d)} else multiset{})
      && t'.net == t.net + (if asks then multiset{SliceQuery(p, d, c.item.executor.value.pub)} else multiset{})
      && (waits ==> d in c.item.candidates)
      && t'.at.item ==
           if waits then c.item.(candidates := c.item.candidates[d := c.item.candidates[d] + [p]]) else c.item
  {
    assert t.at in SignSound(env);
    if t.at.item.executor.None? { NothingFoundYet(t.at, env); }
  }


  /** Nobody is lost: as long as there is no executor there is no slice and everybody
      accepted waits; from then on nobody waits and everybody accepted has been asked. */
  lemma NobodyForgotten(t: SignTask, env: Env, p: Id, d: nat)
    requires SignInv(t, env) && 1 <= t.at.item.info.exec.k
    ensures t.at.accepted[(p, d)] == Queued(t.at.item, p, d) + t.at.asked[(p, d)]
    ensures t.at.item.executor.None? ==>
      t.at.item.candidates.Keys == t.at.item.slices.Keys && t.at.asked == multiset{} && !HasFound(t.at.item, d)
    ensures t.at.item.executor.Some? ==>
      t.at.item.candidates == map[] && t.at.asked[(p, d)] == t.at.accepted[(p, d)]
  {
    assert t.at in SignSound(env);
  }

  /** The threshold is what protects the queue: when the executor is chosen, everybody in
      the queue is asked if and only if k is at least 1 or nobody is waiting. */
  lemma QueueAskedIff(t: SignTask, env: Env, who: NodeInfo, i: SignInputs)
    requires SignInv(t, env) && t.at.item.executor == None && IsOrderOf(i.queue, t.at.item.candidates.Keys)
    ensures var asked := AtSigner(t.at, env, OnExecutorAttested(t.at.item, who, i.queue, i.order)).at.asked;
      (forall p, d :: asked[(p, d)] == Queued(t.at.item, p, d))
        <==> 1 <= t.at.item.info.exec.k || forall p, d :: Queued(t.at.item, p, d) == 0
  {
    assert t.at in SignSound(env);
    if 1 <= t.at.item.info.exec.k { ChosenAsks(t.at, env, who, i); }
    else { ChosenForgets(t.at, env, who, i); }
  }

  /** The delegator never lacks an executor to send a bundle to: a slice of a known
      deployment is stored or refused without an error. */
  lemma ReplyHandled(t: SignTask, env: Env, e: SignEvent, order: seq<nat>)
    requires SignInv(t, env) && e in t.net && e.SliceReply?
    ensures OnSliceReply(t.at.item, e.peer, e.deployment, e.slice, order).ok <==> e.deployment in t.at.item.slices
  {
    assert e in SignAllowed(t.at, env);
  }
}
