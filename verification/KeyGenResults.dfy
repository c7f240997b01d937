/** What the key generation invariant means for layer 1, for the pinners and for whoever
    wants to sign later. */
module KeyGenResults {
  import opened Types
  import opened SymbolicCrypto
  import opened KeyGenTypes
  import opened Environment
  import opened KeyGenElection
  import opened PeerKeyGen
  import opened DelegatorKeyGen
  import opened KeyGenProtocol
  import opened KeyGenInvariant
  import opened KeyGenSteps

  // ---------------------------------------------------------------- the report

  /** A sharing of the reported key, one slice behind each of n different ids. */
  ghost predicate SharesBehind(env: Env, p2: Data, ids: seq<nat>, n: nat, k: nat) {
    && p2.PublicOf? && p2.secret.Secret?
    && |ids| == n && Distinct(ids)
    && (forall d :: d in ids ==> Payload(env, d).Some? && OneSharing(p2.secret, n, k, [Payload(env, d).value]))
    && (forall c, d :: c in ids && d in ids && Payload(env, c) == Payload(env, d) ==> c == d)
  }

  lemma SharesStay(env: Env, env': Env, p2: Data, ids: seq<nat>, n: nat, k: nat)
    requires SharesBehind(env, p2, ids, n, k) && Grows(env, env')
    ensures SharesBehind(env', p2, ids, n, k)
    ensures forall d :: d in ids ==> Payload(env', d) == Payload(env, d)
  {
    forall d | d in ids ensures Payload(env', d) == Payload(env, d) { PayloadStable(env, env', d); }
  }

  /** When every response is in, the reported ids are the responses, peer by peer. */
  lemma {:induction false} KnownIs(order: seq<Id>, responses: map<Id, Option<nat>>)
    requires forall p :: p in order ==> p in responses && responses[p].Some?
    ensures |Known(order, responses)| == |order|
    ensures forall j :: 0 <= j < |order| ==> Known(order, responses)[j] == responses[order[j]].value
  {
    if order != [] {
      assert forall p :: p in order[..|order| - 1] ==> p in order;
      assert order[|order| - 1] in order;
      KnownIs(order[..|order| - 1], responses);
    }
  }

  lemma PinnerCount(item: KeyGenItem, keys: set<Id>)
    requires DistinctPeers(Roster(item)) && forall p :: p in keys <==> IsPinner(item.pinners, p)
    ensures |keys| == |item.pinners|
  {
    PinnersDistinct(item);
    var peers := seq(|item.pinners|, i requires 0 <= i < |item.pinners| => item.pinners[i].peer);
    DistinctCount(peers);
    forall p ensures p in peers <==> p in keys {
      if p in keys {
        var i :| 0 <= i < |item.pinners| && item.pinners[i].peer == p;
        assert peers[i] == p;
      }
    }
    assert Elements(peers) == keys;
  }

  lemma DeployedShare(c: Stored, env: Env, p: Id, d: nat)
    requires Deployed(c, env, p, d)
    ensures Payload(env, d) == Some(ShareFor(c.item, p))
  {
  }

  /** Different pinners, different deployments, different slices. */
  lemma DeployedApart(c: Stored, env: Env, p: Id, d: nat, q: Id, e: nat)
    requires Deployed(c, env, p, d) && Deployed(c, env, q, e) && p != q
    ensures d != e && Payload(env, d) != Payload(env, e)
  {
  }

  /** Layer 1 is told once, when every elected pinner has answered; and what it is told
      is the public key and the account of the generated secret and n different
      deployments that hold n different slices of it. */
  lemma ReportSound(t: KeyGenTask, env: Env)
    requires Inv(t, env)
    ensures |t.at.reports| <= 1
    ensures t.at.reports != [] <==> t.at.item.state == ReceivedAllPinnerResponse
    ensures t.at.reports != [] ==>
      var r, item := t.at.reports[0], t.at.item;
      && AllReady(item.responses) && (forall p :: IsPinner(item.pinners, p) ==> p in item.responses)
      && SharesBehind(env, r.p2, r.deployments, item.info.exec.n, item.info.exec.k)
      && r.taskId == item.info.taskId && r.nonce == item.nonce
      && r.account == MultiSig(item.info.exec.k, [item.p1, r.p2], item.info.exec.taskType)
  {
    var c := t.at;
    assert c in InStage(env);
    if c.reports != [] { ReportedShares(c, env); }
  }

  lemma ReportedIds(c: Stored, env: Env) returns (order: seq<Id>)
    requires c in InStage(env) && c.item.state == ReceivedAllPinnerResponse && DistinctPeers(Roster(c.item))
    ensures |c.reports| == 1 && |c.reports[0].deployments| == |order| == c.item.info.exec.n
    ensures Distinct(order)
    ensures forall j :: 0 <= j < |order| ==> Deployed(c, env, order[j], c.reports[0].deployments[j])
  {
    order :| IsOrderOf(order, c.item.responses.Keys) && ReportOf(c.item, order).Some?
      && c.reports == [ReportOf(c.item, order).value];
    forall j | 0 <= j < |order| ensures order[j] in c.item.responses {
      assert order[j] in Elements(order);
    }
    KnownIs(order, c.item.responses);
    DistinctCount(order);
    PinnerCount(c.item, c.item.responses.Keys);
  }

  lemma DeployedShares(c: Stored, env: Env, order: seq<Id>, ids: seq<nat>)
    requires KeysOk(c.item, env) && |ids| == |order| == c.item.info.exec.n && Distinct(order)
    requires forall j :: 0 <= j < |order| ==> Deployed(c, env, order[j], ids[j])
    ensures SharesBehind(env, c.item.p2.value, ids, c.item.info.exec.n, c.item.info.exec.k)
  {
    forall i, j | 0 <= i < j < |ids| ensures ids[i] != ids[j] && Payload(env, ids[i]) != Payload(env, ids[j]) {
      DeployedApart(c, env, order[i], ids[i], order[j], ids[j]);
    }
    forall d | d in ids
      ensures Payload(env, d).Some? && OneSharing(c.item.p2.value.secret, c.item.info.exec.n, c.item.info.exec.k, [Payload(env, d).value])
    {
      var j :| 0 <= j < |ids| && ids[j] == d;
      DeployedShare(c, env, order[j], d);
    }
  }

  lemma ReportedShares(c: Stored, env: Env)
    requires c in InStage(env) && c.item.state == ReceivedAllPinnerResponse && DistinctPeers(Roster(c.item))
    ensures |c.reports| == 1 && KeysOk(c.item, env)
    ensures SharesBehind(env, c.item.p2.value, c.reports[0].deployments, c.item.info.exec.n, c.item.info.exec.k)
  {
    var order := ReportedIds(c, env);
    DeployedShares(c, env, order, c.reports[0].deployments);
  }

  function Payloads(env: Env, ids: seq<nat>): (r: seq<Data>)
    requires forall d :: d in ids ==> Payload(env, d).Some?
    ensures |r| == |ids| && forall j :: 0 <= j < |ids| ==> r[j] == Payload(env, ids[j]).value
  {
    seq(|ids|, j requires 0 <= j < |ids| => (assert ids[j] in ids; Payload(env, ids[j]).value))
  }

  /** Any choice of reported deployments recovers the secret of the reported public key,
      asked with any threshold `ask`, exactly when the choice has at least k of them and
      at least `ask`; with fewer than `ask` recovery refuses. */
  lemma AnyKRecover(env: Env, p2: Data, ids: seq<nat>, n: nat, k: nat, chosen: seq<nat>, ask: nat)
    requires SharesBehind(env, p2, ids, n, k) && chosen != [] && Distinct(chosen)
    requires forall d :: d in chosen ==> d in ids
    ensures ShamirRecovery(ask, Payloads(env, chosen)) == Some(p2.secret) <==> ask <= |chosen| && k <= |chosen|
    ensures ShamirRecovery(ask, Payloads(env, chosen)).None? <==> |chosen| < ask
  {
    var slices := Payloads(env, chosen);
    forall i, j | 0 <= i < j < |slices| ensures slices[i] != slices[j] {
      assert chosen[i] in chosen && chosen[j] in chosen;
    }
    forall s | s in slices ensures s.Share? && s.secret == p2.secret && s.n == n && s.k == k {
      var j :| 0 <= j < |slices| && slices[j] == s;
      assert chosen[j] in chosen && s in [Payload(env, chosen[j]).value];
    }
    RecoveryExact(ask, p2.secret.id, n, k, slices);
  }

  // ---------------------------------------------------------------- the stages

  function Rank(s: KeyGenState): nat {
    match s
    case Init => 0 case InvitedCandidates => 1 case RaBegun => 2 case RaCompleted => 3
    case SentToExecutor => 4 case ReceivedExecutionResult => 5
    case SentToInitialPinner => 6 case ReceivedAllPinnerResponse => 7
  }

  /** What one message may do to the stage and to the reports. */
  predicate Advances(c: Stored, e: KeyGenEvent, c': Stored) {
    || (c'.item.state == c.item.state && c'.reports == c.reports)
    || (c.item.state == InvitedCandidates && c'.item.state == SentToExecutor
        && e.RaSucceeded? && c'.reports == c.reports)
    || (c.item.state == SentToExecutor && c'.item.state == SentToInitialPinner
        && e.ExecutionResponseMsg? && c'.reports == c.reports)
    || (c.item.state == SentToInitialPinner && c'.item.state == ReceivedAllPinnerResponse
        && e.SliceResponseMsg? && |c'.reports| == 1 && c.reports == [])
  }

  lemma AdvancesInRank(c: Stored, e: KeyGenEvent, c': Stored)
    requires Advances(c, e, c')
    ensures Rank(c.item.state) <= Rank(c'.item.state)
  {
  }

  lemma RaAdvances(c: Stored, env: Env, e: KeyGenEvent, inputs: Inputs)
    requires StoredOk(c, env) && e.RaSucceeded? && BagWalked(c.item, e, inputs.bag)
    ensures Advances(c, e, Handle(c, env, e, inputs).at)
  {
    AttestedIsApplied(c.item, e, inputs.bag);
    if c.item.state == InvitedCandidates {
      SuccessElectsOrWaits(c.item, NodeInfo(e.peer, e.pub), e.executor);
    }
  }

  lemma OtherAdvances(c: Stored, env: Env, e: KeyGenEvent, inputs: Inputs)
    requires c.item.info.exec.n != 0 && c in InStage(env) && e in Allowed(c, env) && !e.RaSucceeded?
    ensures Advances(c, e, Handle(c, env, e, inputs).at)
  {
  }

  /** No step takes the delegator back, whatever arrives and in whatever order: the
      response handlers check no stage, but no response can come out of its turn. The one
      report is made by the answer that completes the responses. */
  lemma StagesAdvance(t: KeyGenTask, env: Env, a: Action)
    requires Inv(t, env) && Enabled(t, a)
    ensures var c' := Next(t, env, a).0.at;
      && Rank(t.at.item.state) <= Rank(c'.item.state)
      && if a.Deliver? then Advances(t.at, a.event, c') else c' == t.at
  {
    if a.Deliver? {
      assert a.event in Allowed(t.at, env);
      if a.event.RaSucceeded? { RaAdvances(t.at, env, a.event, a.inputs); }
      else { OtherAdvances(t.at, env, a.event, a.inputs); }
      AdvancesInRank(t.at, a.event, Next(t, env, a).0.at);
    }
  }

  // ---------------------------------------------------------------- the execution

  /** The executor of the task answers with a sharing of a key that is its own, made out to
      the pinners it was told, and has then executed its item. */
  lemma RequestExecuted(t: KeyGenTask, env: Env, p: Id, x: ExecutionRequest) returns (r: ExecutionResponse)
    requires Inv(t, env) && EnvOk(env) && ExecutionRequestMsg(p, x) in t.net
    ensures var step := OnExecutionRequest(StoreAt(t.at, p), env, p, x);
      && step.ok && step.out == [ExecutionResponseMsg(p, r)]
      && step.store == StoreAt(t.at, p).(exec := Some(ExecutorItem(t.at.item.info, ExecExecuted)))
      && r.p2 == PublicOf(Secret(env.nextKey)) && ResultOk(t.at.item, step.env, r)
  {
    assert ExecutionRequestMsg(p, x) in Allowed(t.at, env) && t.at in InStage(env);
    var item := StoreAt(t.at, p).exec.value;
    ResultFresh(t.at.item, env, item);
    r := ExecutionResult(item, x, env.nextKey);
  }

  lemma RequestDelivered(t: KeyGenTask, env: Env, p: Id, x: ExecutionRequest, inputs: Inputs) returns (r: ExecutionResponse)
    requires Inv(t, env) && EnvOk(env) && Enabled(t, Deliver(ExecutionRequestMsg(p, x), inputs))
    ensures var (t', env') := Next(t, env, Deliver(ExecutionRequestMsg(p, x), inputs));
      && t'.net == t.net - multiset{ExecutionRequestMsg(p, x)} + multiset{ExecutionResponseMsg(p, r)}
      && StoreAt(t'.at, p) == StoreAt(t.at, p).(exec := Some(ExecutorItem(t.at.item.info, ExecExecuted)))
      && r.p2 == PublicOf(Secret(env.nextKey)) && ResultOk(t.at.item, env', r)
  {
    r := RequestExecuted(t, env, p, x);
    assert multiset([ExecutionResponseMsg(p, r)]) == multiset{ExecutionResponseMsg(p, r)};
  }

  // ---------------------------------------------------------------- the commit

  /** When layer 1 announces the asset, exactly the elected pinners commit an upload, a
      fallback executor among them as well; and each commits the deployment it reported
      with the cid of that same deployment. */
  lemma CommitFindsData(t: KeyGenTask, env: Env, p: Id)
    requires Inv(t, env) && t.at.reports != []
    ensures var o := OnAssetGenerated(StoreAt(t.at, p), env, p, t.at.reports[0].account);
      && (o.Committed? <==> IsPinner(t.at.item.pinners, p))
      && (o.Committed? ==>
            && t.at.item.responses[p] == Some(o.commit.deployment)
            && o.commit.deployment in env.deployments
            && env.deployments[o.commit.deployment].owner == p
            && env.deployments[o.commit.deployment].cid == o.commit.cid)
  {
    assert t.at in InStage(env);
    if IsPinner(t.at.item.pinners, p) {
      assert p in t.at.item.responses;
      assert Deployed(t.at, env, p, t.at.item.responses[p].value);
    } else {
      assert !HasRecord(env, (p, t.at.item.account.value));
    }
  }

  /** An elected pinner can serve its slice: whether it applied as a pinner or falls back
      from executor candidate, the item it takes up is still in state `Requested`, under
      the delegator's parameters, and its stored key opens the request into its share. */
  lemma PinnerServes(t: KeyGenTask, env: Env, p: Id, s: SliceRequest)
    requires Inv(t, env) && SliceRequestMsg(p, s) in t.net
    ensures var store := StoreAt(t.at, p);
      && PinnerItemOf(store) == Some(PinnerItem(t.at.item.info, PinRequested))
      && (store.exec.Some? <==> store.pin.None?)
      && t.at.item.p2.Some? && t.at.item.p2.value.PublicOf? && IsPinner(t.at.item.pinners, p)
      && store.rsa.Some? && RsaDecrypt(store.rsa.value, s.slice) == Some(ShareFor(t.at.item, p))
  {
    assert SliceRequestMsg(p, s) in Allowed(t.at, env);
  }
}
