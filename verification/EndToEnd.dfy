/** What the two protocols promise together, in every world that steps can reach: from the
    wallet key that one executor generated to the signature that another one commits. */
module EndToEnd {
  import opened Types
  import opened SymbolicCrypto
  import opened KeyGenTypes
  import opened Environment
  import opened PeerKeyGen
  import opened DelegatorKeyGen
  import opened KeyGenProtocol
  import opened KeyGenInvariant
  import opened KeyGenSteps
  import opened KeyGenSafety
  import opened KeyGenResults
  import opened SignTypes
  import opened DelegatorSign
  import opened PeerSign
  import opened SignProtocol
  import opened SignInvariant
  import opened SignResults
  import opened SignStages
  import opened Agreement
  import opened Wallet
  import opened Requests

  /** What layer 1 was told about the account that a signing task signs for. */
  ghost function SourceReport(w: World, id: Id): Report
    requires id in w.signs && w.signs[id].source in w.gens && w.gens[w.signs[id].source].at.reports != []
  {
    w.gens[w.signs[id].source].at.reports[0]
  }

  lemma GenIn(w: World, id: Id)
    requires Reachable(w) && id in w.gens
    ensures Inv(w.gens[id], w.env) && EnvOk(w.env) && w.gens[id].at.item.info.taskId == id
    ensures PeersAgree(w.gens[id].at)
  {
    ReachableGood(w);
    assert w.gens[id] in SoundGens(id, w.env);
  }

  lemma SignIn(w: World, id: Id)
    requires Reachable(w) && id in w.signs
    ensures SignInv(w.signs[id].task, w.env) && SourceOk(w.signs[id], w.gens)
    ensures Staged(w.signs[id].task) && SignersAgree(w.signs[id].task.at)
  {
    ReachableGood(w);
    assert w.signs[id] in SoundSigns(w.gens, w.env);
  }

  /** No message of a key generation task, delivered whenever, meets an error, and none
      changes what the task was started with. */
  lemma NoHandlerFails(w: World, id: Id, e: KeyGenEvent, inputs: Inputs)
    requires Reachable(w) && CanStep(w, StepKeyGen(id, Deliver(e, inputs)))
    ensures HandlerSucceeds(w.gens[id].at, w.env, e, inputs)
    ensures SameTask(Stepped(w, StepKeyGen(id, Deliver(e, inputs))).gens[id].at.item, w.gens[id].at.item)
  {
    GenIn(w, id);
    NextKeeps(w.gens[id], w.env, Deliver(e, inputs));
  }

  /** At most one report for each task, and any choice of the reported deployments gives
      back the secret of the reported key exactly when it has k of them. */
  lemma ReportedKeyRecovers(w: World, id: Id, chosen: seq<nat>)
    requires Reachable(w) && id in w.gens && w.gens[id].at.reports != []
    requires chosen != [] && Distinct(chosen)
    requires forall d :: d in chosen ==> d in w.gens[id].at.reports[0].deployments
    ensures |w.gens[id].at.reports| == 1
    ensures var r, exec := w.gens[id].at.reports[0], w.gens[id].at.item.info.exec;
      && |r.deployments| == exec.n && Distinct(r.deployments) && r.p2.PublicOf?
      && r.account == MultiSig(exec.k, [w.gens[id].at.item.p1, r.p2], exec.taskType)
      && (forall d :: d in chosen ==> Payload(w.env, d).Some?)
      && (ShamirRecovery(1, Payloads(w.env, chosen)) == Some(r.p2.secret) <==> exec.k <= |chosen|)
  {
    GenIn(w, id);
    ReportSound(w.gens[id], w.env);
    var r, exec := w.gens[id].at.reports[0], w.gens[id].at.item.info.exec;
    AnyKRecover(w.env, r.p2, r.deployments, exec.n, exec.k, chosen, 1);
  }

  /** A reported account leads back to one task. */
  lemma AccountHasOneSource(w: World, a: Id, b: Id)
    requires Reachable(w) && a in w.gens && b in w.gens
    requires w.gens[a].at.reports != [] && w.gens[b].at.reports != []
    requires w.gens[a].at.reports[0].account == w.gens[b].at.reports[0].account
    ensures a == b
  {
    GenIn(w, a);
    GenIn(w, b);
    ReportOrigin(w.gens[a], w.env);
    ReportOrigin(w.gens[b], w.env);
  }

  lemma ReportOrigin(t: KeyGenTask, env: Env)
    requires Inv(t, env) && t.at.reports != []
    ensures var key := AccountKey(t.at.reports[0].account);
      key.Some? && key.value in env.origin && env.origin[key.value] == t.at.item.info.taskId
  {
    assert t.at in InStage(env);
  }

  /** When layer 1 announces the account, exactly the elected pinners commit, each its own
      deployment with the cid of the same upload. */
  lemma CommitsMatchUploads(w: World, id: Id, p: Id)
    requires Reachable(w) && id in w.gens && w.gens[id].at.reports != []
    ensures var t := w.gens[id];
      var o := OnAssetGenerated(StoreAt(t.at, p), w.env, p, t.at.reports[0].account);
      && (o.Committed? <==> IsPinner(t.at.item.pinners, p))
      && (o.Committed? ==>
            && o.commit.deployment in t.at.reports[0].deployments
            && o.commit.deployment in w.env.deployments
            && w.env.deployments[o.commit.deployment].owner == p
            && w.env.deployments[o.commit.deployment].cid == o.commit.cid)
  {
    GenIn(w, id);
    var t := w.gens[id];
    CommitFindsData(t, w.env, p);
    if IsPinner(t.at.item.pinners, p) { ReportedResponse(t, w.env, p); }
  }

  /** The announcement of the account meets an error at a peer if and only if the peer
      applied as a pinner and was not elected. */
  lemma AnnouncementFailsIff(w: World, id: Id, p: Id)
    requires Reachable(w) && id in w.gens && w.gens[id].at.reports != []
    ensures var t := w.gens[id];
      var o := OnAssetGenerated(StoreAt(t.at, p), w.env, p, t.at.reports[0].account);
      o.RecordMissing? <==> StoreAt(t.at, p).pin.Some? && !IsPinner(t.at.item.pinners, p)
  {
    GenIn(w, id);
    CommitFindsData(w.gens[id], w.env, p);
  }

  /** It does at every candidate pinner that was left over. */
  lemma LeftoversFail(w: World, id: Id, who: NodeInfo)
    requires Reachable(w) && id in w.gens && w.gens[id].at.reports != [] && who in w.gens[id].at.item.cip
    ensures var t := w.gens[id];
      OnAssetGenerated(StoreAt(t.at, who.peer), w.env, who.peer, t.at.reports[0].account).RecordMissing?
  {
    GenIn(w, id);
    AnnouncementFailsIff(w, id, who.peer);
    PinnersEnlisted(w.gens[id].at.item);
  }

  lemma ReportedResponse(t: KeyGenTask, env: Env, p: Id)
    requires Inv(t, env) && t.at.reports != [] && IsPinner(t.at.item.pinners, p)
    ensures p in t.at.item.responses && t.at.item.responses[p].Some?
    ensures t.at.item.responses[p].value in t.at.reports[0].deployments
  {
    assert t.at in InStage(env);
    var order := ResponseOrder(t.at, env);
    assert p in Elements(order);
    var j :| 0 <= j < |order| && order[j] == p;
    forall q | q in order ensures q in t.at.item.responses && t.at.item.responses[q].Some? {
      assert q in Elements(order);
    }
    KnownIs(order, t.at.item.responses);
    assert t.at.reports[0].deployments[j] == t.at.item.responses[p].value;
  }

  lemma ResponseOrder(c: Stored, env: Env) returns (order: seq<Id>)
    requires c in InStage(env) && c.reports != []
    ensures IsOrderOf(order, c.item.responses.Keys) && AllReady(c.item.responses)
    ensures c.reports[0].deployments == Known(order, c.item.responses)
  {
    order :| IsOrderOf(order, c.item.responses.Keys) && ReportOf(c.item, order).Some?
      && c.reports == [ReportOf(c.item, order).value];
  }

  // ---------------------------------------------------------------- from the requests of layer 1

  /** What layer 1 asks of key generation is what candidates are invited to, what the one
      executor is told to do, and what is reported. */
  lemma EventCarried(steps: seq<Step>, w: World, g: Step)
    requires After(steps) == Some(w) && g in steps && g.BeginKeyGen?
    ensures g.event.taskId in w.gens
    ensures forall e :: e in w.gens[g.event.taskId].net ==> EventFits(g.event, w.gens[g.event.taskId].at.item, e)
    ensures forall r :: r in w.gens[g.event.taskId].at.reports ==> ReportFits(g.event, g.nonce, w.env, r)
  {
    RunHonours(steps, g);
    var t := w.gens[g.event.taskId];
    GenIn(w, g.event.taskId);
    ReportSound(t, w.env);
    forall e | e in t.net ensures EventFits(g.event, t.at.item, e) {
      assert e in Allowed(t.at, w.env);
    }
    forall r | r in t.at.reports ensures ReportFits(g.event, g.nonce, w.env, r) {
      assert r == t.at.reports[0];
    }
  }

  ghost predicate EventFits(x: KeyGenerationEvent, item: KeyGenItem, e: KeyGenEvent) {
    match e
    case CandidateMsg(_, r) => r == CandidateRequest(x.taskId, x.n % 256, x.k % 256, x.keyType, r.executor)
    case SignatureChecked(_, r) => r == CandidateRequest(x.taskId, x.n % 256, x.k % 256, x.keyType, r.executor)
    case ExecutionRequestMsg(p, r) =>
      && item.executor.Some? && p == item.executor.value.peer
      && r == ExecutionRequest(x.taskId, item.pinners, x.k % 256, x.keyType, x.p1)
    case ExecutionResponseMsg(_, r) =>
      && r.taskId == x.taskId && r.p2.PublicOf? && r.account == MultiSig(x.k % 256, [x.p1, r.p2], x.keyType)
    case SliceRequestMsg(_, r) =>
      && r.taskId == x.taskId && r.p2.PublicOf? && r.account == MultiSig(x.k % 256, [x.p1, r.p2], x.keyType)
    case _ => true
  }

  ghost predicate ReportFits(x: KeyGenerationEvent, nonce: Data, env: Env, r: Report) {
    && r.taskId == x.taskId && r.nonce == nonce
    && SharesBehind(env, r.p2, r.deployments, x.n % 256, x.k % 256)
    && r.account == MultiSig(x.k % 256, [x.p1, r.p2], x.keyType)
  }

  /** What layer 1 asks to be signed is what executors are invited to and what every bundle
      carries, under way or sent before. */
  lemma RequestCarried(steps: seq<Step>, w: World, s: Step)
    requires After(steps) == Some(w) && s in steps && s.BeginSign?
    ensures s.request.taskId in w.signs
    ensures var t := w.signs[s.request.taskId].task;
      && (forall e :: e in t.net ==> RequestFits(s, t.at.item, e))
      && (forall b :: b in t.at.bundles ==> BundleFits(s, b))
  {
    RunHonours(steps, s);
    var t := w.signs[s.request.taskId].task;
    SignIn(w, s.request.taskId);
    assert t.at in SignSound(w.env);
    forall b | b in t.at.bundles ensures BundleFits(s, b) {
      var i :| 0 <= i < |t.at.bundles| && t.at.bundles[i] == b;
      assert BundleOk(t.at, i);
    }
    forall e | e in t.net ensures RequestFits(s, t.at.item, e) {
      assert e in SignAllowed(t.at, w.env);
    }
  }

  predicate BundleFits(s: Step, b: Bundle)
    requires s.BeginSign?
  {
    b == Bundle(s.request.taskId, s.request.transaction, s.request.p1Signature, s.exec.taskType, b.slices)
  }

  predicate RequestFits(s: Step, item: SignItem, e: SignEvent)
    requires s.BeginSign?
  {
    match e
    case SignCandidateMsg(_, r) =>
      r == SignCandidate(s.request.taskId, s.request.account, s.exec.n, s.exec.k, s.exec.taskType)
    case BundleMsg(p, b) => item.executor.Some? && p == item.executor.value.peer && BundleFits(s, b)
    case _ => true
  }

  ghost predicate Committed(w: World, id: Id, v: Data) {
    id in w.signs && (v in w.signs[id].task.at.commits || exists p :: CommitMsg(p, v) in w.signs[id].task.net)
  }

  /** Key integrity, from request to commit, over every run: whatever a signing task commits
      was asked for by one request s to sign, for the account of a key that one event g asked
      for; the account is that of the first public key of the event and the reported second
      one, with the event's k; and provided that as many slices are asked for as the event
      says, the commit is one signature of the requested transaction under the very secret
      whose public half was reported. */
  lemma KeyIntegrity(steps: seq<Step>, w: World, id: Id, v: Data) returns (g: Step, s: Step)
    requires After(steps) == Some(w) && Committed(w, id, v)
    ensures s in steps && s.BeginSign? && s.request.taskId == id
    ensures g in steps && g.BeginKeyGen? && g.event.taskId == s.source
    ensures s.source in w.gens && |w.gens[s.source].at.reports| == 1
    ensures var r := w.gens[s.source].at.reports[0];
      && r.p2.PublicOf? && s.request.account == MultiSig(g.event.k % 256, [g.event.p1, r.p2], g.event.keyType)
      && (g.event.k % 256 <= s.exec.k ==>
            v == Witness(s.exec.k, [], [Signature(s.exec.taskType, r.p2.secret, s.request.transaction)],
                         s.exec.taskType))
  {
    s := WasBegun(steps, id, true);
    RunHonours(steps, s);
    SignIn(w, id);
    g := WasBegun(steps, s.source, false);
    RunHonours(steps, g);
    EventCarried(steps, w, g);
    CommitsSigned(w, id, v);
    GenIn(w, s.source);
    ReportSound(w.gens[s.source], w.env);
  }

  lemma CommitsSigned(w: World, id: Id, v: Data)
    requires Reachable(w) && Committed(w, id, v)
    ensures var s := w.signs[id];
      && s.source in w.gens && w.gens[s.source].at.reports != []
      && var r, item := SourceReport(w, id), s.task.at.item;
         && item.account == r.account && r.p2.PublicOf?
         && (w.gens[s.source].at.item.info.exec.k <= item.info.exec.k ==> v == Authentic(s.task.at, r.p2))
  {
    SignIn(w, id);
    var s := w.signs[id];
    GenIn(w, s.source);
    ReportSound(w.gens[s.source], w.env);
    var r, exec := SourceReport(w, id), w.gens[s.source].at.item.info.exec;
    if exec.k <= s.task.at.item.info.exec.k {
      CommitsAuthentic(s.task, w.env, r.p2, r.deployments, exec.n, exec.k, v);
    }
  }

  /** And the bound is exact in every reachable world: once a bundle has been sent, the
      executor signs faithfully from all the bundles there are if and only if the signing
      threshold reaches that of the key. */
  lemma FaithfulIff(w: World, id: Id)
    requires Reachable(w) && id in w.signs
    requires w.signs[id].task.at.bundles != [] && 1 <= w.signs[id].task.at.item.info.exec.k
    ensures var s := w.signs[id];
      && s.source in w.gens && w.gens[s.source].at.reports != []
      && var c, r := s.task.at, SourceReport(w, id);
         && c.item.executor.Some? && r.p2.PublicOf?
         && ((forall i :: 0 <= i < |c.bundles| ==> SignedFrom(c, c.bundles[i]) == Some(Authentic(c, r.p2)))
               <==> w.gens[s.source].at.item.info.exec.k <= c.item.info.exec.k)
  {
    SignIn(w, id);
    var s := w.signs[id];
    GenIn(w, s.source);
    ReportSound(w.gens[s.source], w.env);
    var r, exec := SourceReport(w, id), w.gens[s.source].at.item.info.exec;
    AuthenticIff(s.task.at, w.env, r.p2, r.deployments, exec.n, exec.k);
  }

  /** The executor of a signing task can always use what it is sent: it commits once what it
      makes of the bundle, and has then executed its item. */
  lemma ExecutorNeverStuck(w: World, id: Id, p: Id, b: Bundle)
    requires Reachable(w) && id in w.signs && BundleMsg(p, b) in w.signs[id].task.net
    requires 1 <= w.signs[id].task.at.item.info.exec.k
    ensures var c := w.signs[id].task.at;
      var o := OnBundle(SignStoreAt(c, p), w.env, p, b);
      && o.ok && o.env == w.env && c.item.executor.Some? && SignedFrom(c, b).Some?
      && o.out == [CommitMsg(p, SignedFrom(c, b).value)]
      && o.store == SignStore(Some(ExecutorItem(c.item.info, ExecExecuted)), SignStoreAt(c, p).rsa)
  {
    SignIn(w, id);
    var s := w.signs[id];
    GenIn(w, s.source);
    ReportSound(w.gens[s.source], w.env);
    var r, exec := SourceReport(w, id), w.gens[s.source].at.item.info.exec;
    BundleHandled(s.task, w.env, r.p2, r.deployments, exec.n, exec.k, p, b);
  }

  /** The executor of key generation executes: what it is sent leaves its item executed, and
      the one thing that goes out is the response with a wallet key of its own. */
  lemma ExecutorExecutes(w: World, id: Id, p: Id, x: ExecutionRequest, inputs: Inputs) returns (r: ExecutionResponse)
    requires Reachable(w) && CanStep(w, StepKeyGen(id, Deliver(ExecutionRequestMsg(p, x), inputs)))
    ensures var t, w' := w.gens[id], Stepped(w, StepKeyGen(id, Deliver(ExecutionRequestMsg(p, x), inputs)));
      var t' := w'.gens[id];
      && t'.net == t.net - multiset{ExecutionRequestMsg(p, x)} + multiset{ExecutionResponseMsg(p, r)}
      && StoreAt(t'.at, p) == StoreAt(t.at, p).(exec := Some(ExecutorItem(t.at.item.info, ExecExecuted)))
      && r.p2 == PublicOf(Secret(w.env.nextKey)) && ResultOk(t.at.item, w'.env, r)
  {
    GenIn(w, id);
    r := RequestDelivered(w.gens[id], w.env, p, x, inputs);
  }

  // ---------------------------------------------------------------- whom signing asks

  /** The reply to `get_delegates` has every delegate looked up, each once, and nobody else;
      nothing else is under way then. */
  lemma SigningInvites(w: World, id: Id, i: SignInputs)
    requires Reachable(w) && CanStep(w, StepSign(id, SignDeliver(SignDelegatesReply, i)))
    ensures var t, t' := w.signs[id].task, Stepped(w, StepSign(id, SignDeliver(SignDelegatesReply, i))).signs[id].task;
      && t'.at.item == t.at.item.(state := FindingDeployments)
      && (forall e :: e in t'.net ==> e.SignProfileReply? && t'.net[e] == 1)
      && (forall p: Id :: SignProfileReply(p) in t'.net <==> p in i.delegates)
  {
    SignIn(w, id);
    var t := w.signs[id].task;
    OnlyTheReply(t.net);
    ProfilesOnce(i.delegates);
  }

  lemma OnlyTheReply(net: multiset<SignEvent>)
    requires SignNetShape(net) && SignDelegatesReply in net
    ensures net == multiset{SignDelegatesReply}
  {
  }

  lemma ProfilesOnce(delegates: seq<Id>)
    requires Distinct(delegates)
    ensures forall e :: e in multiset(SignProfiles(delegates)) ==>
      e.SignProfileReply? && multiset(SignProfiles(delegates))[e] == 1
    ensures forall p: Id :: SignProfileReply(p) in multiset(SignProfiles(delegates)) <==> p in delegates
  {
    var out := SignProfiles(delegates);
    DistinctIsOnce(out);
    forall e | e in multiset(out) ensures e in out { }
    forall p: Id ensures SignProfileReply(p) in multiset(out) <==> p in delegates {
      if p in delegates {
        var j :| 0 <= j < |delegates| && delegates[j] == p;
        assert out[j] == SignProfileReply(p);
      }
    }
  }

  /** An offer to execute changes nothing that is stored. It is attested while there is no
      executor, and without any effect from then on. */
  lemma OfferAttestedIff(w: World, id: Id, p: Id, pub: RsaPublic, i: SignInputs)
    requires Reachable(w) && CanStep(w, StepSign(id, SignDeliver(SignRequestMsg(p, pub), i)))
    ensures var t, t' := w.signs[id].task, Stepped(w, StepSign(id, SignDeliver(SignRequestMsg(p, pub), i))).signs[id].task;
      && t'.at == t.at
      && t'.net - multiset{ExecutorAttested(p, pub)} == t.net - multiset{SignRequestMsg(p, pub)}
      && (ExecutorAttested(p, pub) in t'.net <==> t.at.item.executor.None?)
  {
    SignIn(w, id);
    OfferAttested(w.signs[id].task, w.env, p, pub, i);
  }

  // ---------------------------------------------------------------- signing, in every reachable world

  /** Whatever asks for a slice, carries one or keeps one is made out to the one executor
      of its task, who still has the private half; it is the slice behind that deployment. */
  lemma SlicesForTheExecutor(w: World, id: Id)
    requires Reachable(w) && id in w.signs
    ensures var t := w.signs[id].task;
      && ExecutorHolds(t.at)
      && (forall e :: e in t.net && e.SliceQuery? ==>
            t.at.item.executor.Some? && e.pub == t.at.item.executor.value.pub)
      && (forall e :: e in t.net && e.SliceReply? ==> ForExecutor(t.at, w.env, e.deployment, e.slice))
      && (forall d :: HasFound(t.at.item, d) ==> ForExecutor(t.at, w.env, d, t.at.item.slices[d].value.slice))
  {
    SignIn(w, id);
    ForTheRightExecutor(w.signs[id].task, w.env);
  }

  /** Nobody is lost or asked early: before the executor is chosen there is no slice and
      everybody accepted waits; afterwards nobody waits and everybody has been asked. */
  lemma QueueComplete(w: World, id: Id, p: Id, d: nat)
    requires Reachable(w) && id in w.signs && 1 <= w.signs[id].task.at.item.info.exec.k
    ensures var c := w.signs[id].task.at;
      && c.accepted[(p, d)] == Queued(c.item, p, d) + c.asked[(p, d)]
      && (c.item.executor.None? ==>
            c.item.candidates.Keys == c.item.slices.Keys && c.asked == multiset{} && !HasFound(c.item, d))
      && (c.item.executor.Some? ==> c.item.candidates == map[] && c.asked[(p, d)] == c.accepted[(p, d)])
  {
    SignIn(w, id);
    NobodyForgotten(w.signs[id].task, w.env, p, d);
  }

  /** How often the executor is sent slices: once for every answer from the k-th on, the i-th
      time k + i slices, and each time properly more than before. */
  lemma BundlesCounted(w: World, id: Id)
    requires Reachable(w) && id in w.signs
    ensures var c, k := w.signs[id].task.at, w.signs[id].task.at.item.info.exec.k;
      && |c.bundles| == (if c.item.executor.Some? then Sends(|c.found|, k) else 0)
      && Distinct(c.found) && (forall d :: d in c.found <==> HasFound(c.item, d))
      && (forall i :: 0 <= i < |c.bundles| ==> |c.bundles[i].slices| == k + i <= |c.found|)
      && (forall i, j :: 0 <= i < j < |c.bundles| ==> multiset(c.bundles[i].slices) < multiset(c.bundles[j].slices))
  {
    SignIn(w, id);
    SendCount(w.signs[id].task, w.env);
    assert w.signs[id].task.at in SignSound(w.env);
  }

  /** A slice that arrives is stored with its sender, ignored if the deployment has already
      answered, or refused as unknown; never does the delegator lack an executor to send a
      bundle to. */
  lemma RepliesHandled(w: World, id: Id, e: SignEvent, order: seq<nat>)
    requires Reachable(w) && id in w.signs && e in w.signs[id].task.net && e.SliceReply?
    ensures var item, d := w.signs[id].task.at.item, e.deployment;
      var o := OnSliceReply(item, e.peer, d, e.slice, order);
      && item.executor.Some? && o.item.candidates == item.candidates && o.item.executor == item.executor
      && (o.ok <==> d in item.slices)
      && o.item.slices == (if d in item.slices && item.slices[d] == None
                           then item.slices[d := Some(KeySliceInfo(e.peer, e.slice))] else item.slices)
  {
    SignIn(w, id);
    ReplyHandled(w.signs[id].task, w.env, e, order);
    assert e in SignAllowed(w.signs[id].task.at, w.env);
  }

  /** No key generation step of any task takes a delegator back. */
  lemma StagesNeverGoBack(w: World, id: Id, a: Action)
    requires Reachable(w) && CanStep(w, StepKeyGen(id, a))
    ensures Rank(w.gens[id].at.item.state) <= Rank(Stepped(w, StepKeyGen(id, a)).gens[id].at.item.state)
  {
    GenIn(w, id);
    StagesAdvance(w.gens[id], w.env, a);
  }

  /** A slice request finds its pinner able to serve it. */
  lemma PinnersServe(w: World, id: Id, p: Id, s: SliceRequest)
    requires Reachable(w) && id in w.gens && SliceRequestMsg(p, s) in w.gens[id].net
    ensures var item, store := w.gens[id].at.item, StoreAt(w.gens[id].at, p);
      && PinnerItemOf(store) == Some(PinnerItem(item.info, PinRequested))
      && (store.exec.Some? <==> store.pin.None?)
      && item.p2.Some? && item.p2.value.PublicOf? && IsPinner(item.pinners, p)
      && store.rsa.Some? && RsaDecrypt(store.rsa.value, s.slice) == Some(ShareFor(item, p))
  {
    GenIn(w, id);
    PinnerServes(w.gens[id], w.env, p, s);
  }

  /** The stage of a signing task goes back, in any reachable world and by any step of it, if
      and only if the step delivers, after the commit, the first slice of one of the task's
      deployments. */
  lemma SigningStageGoesBackIff(w: World, id: Id, a: SignAction)
    requires Reachable(w) && CanStep(w, StepSign(id, a))
    ensures var before, after := w.signs[id].task.at, Stepped(w, StepSign(id, a)).signs[id].task.at;
      SignRank(after.item.state) < SignRank(before.item.state) <==> Reopens(before, a)
  {
    SignIn(w, id);
    StageGoesBackIff(w.signs[id].task, w.env, a);
  }

  /** A query for a deployment of the task is answered if and only if the peer that is asked
      holds the deployment: as the one that registered it, or because it came by it
      elsewhere. */
  lemma QueriesAnswered(w: World, id: Id, e: SignEvent, elsewhere: bool)
    requires Reachable(w) && id in w.signs && e in w.signs[id].task.net && e.SliceQuery?
    requires e.deployment in w.signs[id].task.at.item.slices
    ensures e.deployment in w.env.deployments
    ensures OnSliceQuery(SignStoreAt(w.signs[id].task.at, e.peer), w.env, e.peer, e.deployment, e.pub, elsewhere).ok
      <==> w.env.deployments[e.deployment].owner == e.peer || elsewhere
  {
    SignIn(w, id);
    GenIn(w, w.signs[id].source);
    ReportSound(w.gens[w.signs[id].source], w.env);
  }

  /** Thresholds agree across all paths of key generation: every copy of the parameters that
      any peer stores is the delegator's, they satisfy 1 <= k < n, the wallet key is shared
      with them, and the account has the same k. */
  lemma ThresholdsAgree(w: World, id: Id)
    requires Reachable(w) && id in w.gens
    ensures var c := w.gens[id].at;
      && 1 <= c.item.info.exec.k < c.item.info.exec.n <= 254
      && (forall p: Id :: Agrees(StoreAt(c, p), c.item.info))
      && (forall e :: e in w.gens[id].net && e.ExecutionRequestMsg? ==> e.execution.minimum == c.item.info.exec.k)
      && (c.reports != [] ==>
            var r := c.reports[0];
            && SharesBehind(w.env, r.p2, r.deployments, c.item.info.exec.n, c.item.info.exec.k)
            && r.account == MultiSig(c.item.info.exec.k, [c.item.p1, r.p2], c.item.info.exec.taskType))
  {
    GenIn(w, id);
    ReportSound(w.gens[id], w.env);
    RequestsAgree(w.gens[id], w.env);
  }

  lemma RequestsAgree(t: KeyGenTask, env: Env)
    requires Inv(t, env)
    ensures forall e :: e in t.net && e.ExecutionRequestMsg? ==> e.execution.minimum == t.at.item.info.exec.k
  {
    forall e | e in t.net && e.ExecutionRequestMsg? ensures e.execution.minimum == t.at.item.info.exec.k {
      assert e in Allowed(t.at, env);
    }
  }

  /** And of signing: the threshold with which any peer of the task would recover is the one
      at which the delegator sends, and so the executor's. */
  lemma SigningThresholdsAgree(w: World, id: Id)
    requires Reachable(w) && id in w.signs
    ensures var c := w.signs[id].task.at;
      && (forall p: Id :: SignStoreAt(c, p).exec.Some? ==> SignStoreAt(c, p).exec.value.info == c.item.info)
      && (c.item.executor.Some? ==>
            var s := SignStoreAt(c, c.item.executor.value.peer);
            s.exec.Some? && s.exec.value.info.exec.k == c.item.info.exec.k)
  {
    SignIn(w, id);
    assert w.signs[id].task.at in SignSound(w.env);
  }
}
