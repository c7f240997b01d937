/** What holds in every state a key generation task can reach. */
module KeyGenSafety {
  import opened Types
  import opened KeyGenTypes
  import opened Environment
  import opened KeyGenElection
  import opened DelegatorKeyGen
  import opened KeyGenProtocol
  import opened KeyGenInvariant
  import opened KeyGenSteps
  import opened KeyGenDelegatorSteps

  /** The handler of this message takes none of its error branches. */
  predicate HandlerSucceeds(c: Stored, env: Env, e: KeyGenEvent, inputs: Inputs) {
    if IsForPeer(e) then PeerStepOf(c, env, e).ok
    else
      match e
      case RaSucceeded(_, _, _) => AttestedOutcome(c.item, e, inputs.bag).Done?
      case SliceResponseMsg(p, d) => p in c.item.responses && OnSliceResponse(c.item, p, d, inputs.order).ok
      case _ => true
  }

  /** Records that differ are for an account of this task. */
  ghost predicate OwnRecords(env: Env, env': Env, taskId: Id) {
    forall key :: !SameRecord(env, env', key) ==>
      && AccountKey(key.1).Some? && AccountKey(key.1).value in env.origin
      && env.origin[AccountKey(key.1).value] == taskId
  }

  /** What the delegator was given at the start does not change. */
  predicate SameTask(item: KeyGenItem, before: KeyGenItem) {
    item.info == before.info && item.p1 == before.p1 && item.nonce == before.nonce
  }

  /** The effects of handling e that keep everything. */
  ghost function Kept(net: multiset<KeyGenEvent>, e: KeyGenEvent, c: Stored, env: Env): iset<Effect> {
    iset r: Effect |
      && StoredOk(r.at, r.env) && NetOk(NetAfter(net, e, r.out), r.at, r.env)
      && Grows(env, r.env) && EnvOk(r.env) && OwnRecords(env, r.env, c.item.info.taskId)
      && SameTask(r.at.item, c.item)
  }

  lemma WritesOwn(env: Env, env': Env, p: Id, item: KeyGenItem)
    requires Writes(env, env', p, item.account) && (item.account.Some? ==> KeysOk(item, env))
    ensures OwnRecords(env, env', item.info.taskId)
  {
  }

  lemma KeptByParts(net: multiset<KeyGenEvent>, e: KeyGenEvent, c: Stored, env: Env, r: Effect)
    requires StoredOk(r.at, r.env) && NetOk(NetAfter(net, e, r.out), r.at, r.env) && SameTask(r.at.item, c.item)
    requires Grows(env, r.env) && EnvOk(r.env) && OwnRecords(env, r.env, c.item.info.taskId)
    ensures r in Kept(net, e, c, env)
  {
  }

  lemma PeerKept(net: multiset<KeyGenEvent>, c: Stored, env: Env, e: KeyGenEvent, r: Effect)
    requires StoredOk(c, env) && NetOk(net, c, env) && e in net && !e.DelegatesReply? && !e.ExecutionResponseMsg?
    requires Local(c, env, e, r)
    ensures r in Kept(net, e, c, env)
  {
    WritesOwn(env, r.env, e.peer, c.item);
    StoreStep(net, c, env, e, r);
    KeptByParts(net, e, c, env, r);
  }

  lemma KeptBy(net: multiset<KeyGenEvent>, e: KeyGenEvent, c: Stored, env: Env, c': Stored, out: seq<KeyGenEvent>)
    requires EnvOk(env) && StoredOk(c', env) && NetOk(NetAfter(net, e, out), c', env) && SameTask(c'.item, c.item)
    ensures Effect(c', env, out) in Kept(net, e, c, env)
  {
  }

  lemma PeerEventKept(net: multiset<KeyGenEvent>, c: Stored, env: Env, e: KeyGenEvent, inputs: Inputs)
    requires StoredOk(c, env) && NetOk(net, c, env) && EnvOk(env) && e in net && IsForPeer(e)
    ensures HandlerSucceeds(c, env, e, inputs) && Handle(c, env, e, inputs) in Kept(net, e, c, env)
  {
    assert e in Allowed(c, env);
    match e {
      case CandidateMsg(_, _) => GateLocal(c, env, e);
      case SignatureChecked(_, _) => CandidateLocal(c, env, e);
      case ExecutionRequestMsg(_, _) => ExecutionLocal(c, env, e);
      case SliceRequestMsg(_, _) => SliceLocal(c, env, e);
      case UploadKeyRegistered(_, _, _, _) => UploadLocal(c, env, e);
      case DataUploaded(_, _, _, _, _, _) => DeployLocal(c, env, e);
    }
    PeerKept(net, c, env, e, AtPeer(c, e.peer, PeerStepOf(c, env, e)));
  }

  lemma RelayKept(net: multiset<KeyGenEvent>, c: Stored, env: Env, e: KeyGenEvent, inputs: Inputs)
    requires StoredOk(c, env) && NetOk(net, c, env) && EnvOk(env) && e in net && (e.ProfileReply? || e.ApplyMsg?)
    ensures Handle(c, env, e, inputs) in Kept(net, e, c, env)
  {
    assert e in Allowed(c, env);
    RelayLocal(c, env, e, inputs);
    PeerKept(net, c, env, e, Handle(c, env, e, inputs));
  }

  lemma DelegatesKept(net: multiset<KeyGenEvent>, c: Stored, env: Env, inputs: Inputs)
    requires StoredOk(c, env) && NetOk(net, c, env) && EnvOk(env) && DelegatesReply in net
    requires Distinct(inputs.delegates) && Distinct(inputs.swarm)
    ensures Handle(c, env, DelegatesReply, inputs) in Kept(net, DelegatesReply, c, env)
  {
    DelegatesStep(net, c, env, inputs);
  }

  lemma RaKept(net: multiset<KeyGenEvent>, c: Stored, env: Env, e: KeyGenEvent)
    requires StoredOk(c, env) && NetOk(net, c, env) && EnvOk(env) && e in net && e.RaSucceeded?
    ensures var outcome := OnRaSuccess(c.item, NodeInfo(e.peer, e.pub), e.executor);
      outcome.Done? && Effect(c.(item := outcome.item), env, outcome.out) in Kept(net, e, c, env)
  {
    var outcome := OnRaSuccess(c.item, NodeInfo(e.peer, e.pub), e.executor);
    if c.item.state == InvitedCandidates {
      RaStep(net, c, env, e);
      SuccessElectsOrWaits(c.item, NodeInfo(e.peer, e.pub), e.executor);
    } else {
      LoseStep(net, c, env, e);
      assert c.(item := outcome.item) == c;
    }
    KeptBy(net, e, c, env, c.(item := outcome.item), outcome.out);
  }

  lemma ExecutionResponseKept(net: multiset<KeyGenEvent>, c: Stored, env: Env, e: KeyGenEvent)
    requires StoredOk(c, env) && NetOk(net, c, env) && EnvOk(env) && e in net && e.ExecutionResponseMsg?
    ensures Effect(SharedOut(c, e.result), env, SliceRequests(e.result, c.item.info.taskId)) in Kept(net, e, c, env)
  {
    ExecutionResponseStep(net, c, env, e);
    KeptBy(net, e, c, env, SharedOut(c, e.result), SliceRequests(e.result, c.item.info.taskId));
  }

  lemma SliceResponseKept(net: multiset<KeyGenEvent>, c: Stored, env: Env, e: KeyGenEvent, order: seq<Id>)
    requires StoredOk(c, env) && NetOk(net, c, env) && EnvOk(env) && e in net && e.SliceResponseMsg?
    requires IsOrderOf(order, c.item.responses.Keys)
    ensures e.peer in c.item.responses && OnSliceResponse(c.item, e.peer, e.deployment, order).ok
    ensures Effect(Answered(c, env, e.peer, e.deployment, order), env, []) in Kept(net, e, c, env)
  {
    SliceResponseStep(net, c, env, e, order);
    KeptBy(net, e, c, env, Answered(c, env, e.peer, e.deployment, order), []);
  }

  lemma DelegatorEventKept(net: multiset<KeyGenEvent>, c: Stored, env: Env, e: KeyGenEvent, inputs: Inputs)
    requires StoredOk(c, env) && NetOk(net, c, env) && EnvOk(env) && e in net && !IsForPeer(e)
    requires e.DelegatesReply? ==> Distinct(inputs.delegates) && Distinct(inputs.swarm)
    requires BagWalked(c.item, e, inputs.bag)
    requires e.SliceResponseMsg? ==> IsOrderOf(inputs.order, c.item.responses.Keys)
    ensures HandlerSucceeds(c, env, e, inputs) && Handle(c, env, e, inputs) in Kept(net, e, c, env)
  {
    match e {
      case DelegatesReply => DelegatesKept(net, c, env, inputs);
      case ProfileReply(_) => RelayKept(net, c, env, e, inputs);
      case ApplyMsg(_, _, _) => RelayKept(net, c, env, e, inputs);
      case RaSucceeded(_, _, _) =>
        AttestedIsApplied(c.item, e, inputs.bag);
        RaKept(net, c, env, e);
      case ExecutionResponseMsg(_, _) => ExecutionResponseKept(net, c, env, e);
      case SliceResponseMsg(_, _) => SliceResponseKept(net, c, env, e, inputs.order);
    }
  }

  /** Every step keeps the invariant, and no delivered message meets an error branch. */
  lemma NextKeeps(t: KeyGenTask, env: Env, a: Action)
    requires Inv(t, env) && EnvOk(env) && Enabled(t, a)
    ensures var (t', env') := Next(t, env, a);
      && Inv(t', env') && EnvOk(env') && Grows(env, env') && OwnRecords(env, env', t.at.item.info.taskId)
      && SameTask(t'.at.item, t.at.item)
    ensures a.Deliver? ==> HandlerSucceeds(t.at, env, a.event, a.inputs)
  {
    match a {
      case Deliver(e, inputs) =>
        if IsForPeer(e) { PeerEventKept(t.net, t.at, env, e, inputs); }
        else { DelegatorEventKept(t.net, t.at, env, e, inputs); }
      case Lose(e) => LoseStep(t.net, t.at, env, e);
    }
  }
}
