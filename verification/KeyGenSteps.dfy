/** Each delivery, and each loss, keeps the key generation invariant. */
module KeyGenSteps {
  import opened Types
  import opened SymbolicCrypto
  import opened KeyGenTypes
  import opened TaskInfos
  import opened Environment
  import opened KeyGenElection
  import opened PeerKeyGen
  import opened KeyGenProtocol
  import opened KeyGenInvariant

  /** Taking a message off and sending messages that play new parts, or its own. */
  lemma NetKept(net: multiset<KeyGenEvent>, e: KeyGenEvent, out: seq<KeyGenEvent>)
    requires OneEach(net) && e in net
    requires forall i, j :: 0 <= i < j < |out| ==> TokenOf(out[i]) != TokenOf(out[j])
    requires forall f, g :: f in net && f != e && g in out ==> TokenOf(f) != TokenOf(g)
    ensures OneEach(NetAfter(net, e, out))
    ensures forall f :: f in NetAfter(net, e, out) <==> (f in net && f != e) || f in out
  {
    var rest, net' := net - multiset{e}, NetAfter(net, e, out);
    OutOnce(out);
    forall f ensures f in net' <==> (f in net && f != e) || f in out {
      assert f in out <==> f in multiset(out);
    }
    forall f | f in net' ensures net'[f] == 1 {
      if f in out { assert rest[f] == 0; } else { assert multiset(out)[f] == 0; }
    }
    forall f, g | f in net' && g in net' && TokenOf(f) == TokenOf(g) ensures f == g {
      if f in out && g in out {
        var i :| 0 <= i < |out| && out[i] == f;
        var j :| 0 <= j < |out| && out[j] == g;
        assert i == j;
      }
    }
  }

  lemma {:induction false} OutOnce(out: seq<KeyGenEvent>)
    requires forall i, j :: 0 <= i < j < |out| ==> TokenOf(out[i]) != TokenOf(out[j])
    ensures forall f :: multiset(out)[f] <= 1
  {
    if out != [] {
      var last := |out| - 1;
      OutOnce(out[..last]);
      assert out == out[..last] + [out[last]];
      assert out[last] !in out[..last];
    }
  }

  lemma AllEnlisted(item: KeyGenItem)
    ensures forall p :: IsPinner(item.pinners, p) ==> Enlisted(item, p)
    ensures item.executor.Some? ==> Enlisted(item, item.executor.value.peer)
    ensures forall c :: c in item.ce || c in item.cip ==> Enlisted(item, c.peer)
  {
    var r := Roster(item);
    forall p | IsPinner(item.pinners, p) ensures Enlisted(item, p) {
      var i :| 0 <= i < |item.pinners| && item.pinners[i].peer == p;
      assert item.pinners[i] in multiset(item.pinners) && item.pinners[i] in r;
    }
    forall c | c in item.ce || c in item.cip ensures c in r && Enlisted(item, c.peer) {
      assert c in multiset(item.ce) || c in multiset(item.cip);
    }
  }

  /** Two that are counted apart are different peers. */
  lemma CountedApart(r: multiset<NodeInfo>, a: multiset<NodeInfo>, b: multiset<NodeInfo>)
    requires DistinctPeers(r) && a + b <= r
    ensures forall c, d :: c in a && d in b ==> c.peer != d.peer
  {
    forall c, d | c in a && d in b ensures c.peer != d.peer {
      assert a[c] + b[c] <= r[c] && c in r && d in r;
    }
  }

  lemma PinnersApart(item: KeyGenItem)
    requires DistinctPeers(Roster(item))
    ensures item.executor.Some? ==> !IsPinner(item.pinners, item.executor.value.peer)
    ensures forall c :: c in item.ce || c in item.cip ==> !IsPinner(item.pinners, c.peer)
  {
    var ours := multiset(item.pinners);
    forall i | 0 <= i < |item.pinners| ensures item.pinners[i] in ours { }
    if item.executor.Some? { CountedApart(Roster(item), multiset{item.executor.value}, ours); }
    CountedApart(Roster(item), ours, multiset(item.cip) + multiset(item.ce));
    forall c | c in item.ce || c in item.cip ensures c in multiset(item.cip) + multiset(item.ce) {
      assert c in multiset(item.ce) || c in multiset(item.cip);
    }
  }

  /** Executor, pinners and candidates are different peers. */
  lemma PlacesApart(item: KeyGenItem)
    requires DistinctPeers(Roster(item))
    ensures item.executor.Some? ==> !IsPinner(item.pinners, item.executor.value.peer)
    ensures forall c :: c in item.ce || c in item.cip ==> !IsPinner(item.pinners, c.peer)
    ensures item.executor.Some? ==> forall c :: c in item.ce || c in item.cip ==> c.peer != item.executor.value.peer
  {
    PinnersApart(item);
    if item.executor.Some? {
      CountedApart(Roster(item), multiset{item.executor.value}, multiset(item.cip) + multiset(item.ce));
      forall c | c in item.ce || c in item.cip ensures c in multiset(item.cip) + multiset(item.ce) {
        assert c in multiset(item.ce) || c in multiset(item.cip);
      }
    }
  }

  lemma PinnersEnlisted(item: KeyGenItem)
    ensures forall p :: IsPinner(item.pinners, p) ==> Enlisted(item, p)
    ensures item.executor.Some? ==> Enlisted(item, item.executor.value.peer)
    ensures forall c :: c in item.ce || c in item.cip ==> Enlisted(item, c.peer)
    ensures DistinctPeers(Roster(item)) && item.executor.Some? ==> !IsPinner(item.pinners, item.executor.value.peer)
    ensures DistinctPeers(Roster(item)) ==>
      forall c :: c in item.ce || c in item.cip ==> !IsPinner(item.pinners, c.peer)
    ensures DistinctPeers(Roster(item)) && item.executor.Some? ==>
      forall c :: c in item.ce || c in item.cip ==> c.peer != item.executor.value.peer
  {
    AllEnlisted(item);
    if DistinctPeers(Roster(item)) { PlacesApart(item); }
  }

  lemma PinnersDistinct(item: KeyGenItem)
    requires DistinctPeers(Roster(item))
    ensures forall i, j :: 0 <= i < j < |item.pinners| ==> item.pinners[i].peer != item.pinners[j].peer
  {
    var r := Roster(item);
    forall c | c in multiset(item.pinners) ensures c in r && multiset(item.pinners)[c] == 1 {
      assert c in r;
    }
    DistinctIsOnce(item.pinners);
    forall i, j | 0 <= i < j < |item.pinners| ensures item.pinners[i].peer != item.pinners[j].peer {
      assert item.pinners[i] in multiset(item.pinners) && item.pinners[j] in multiset(item.pinners);
    }
  }

  lemma OthersDiffer(net: multiset<KeyGenEvent>, e: KeyGenEvent)
    requires NetShape(net) && e in net && !e.DelegatesReply?
    ensures forall f :: f in net && f != e ==> TokenOf(f) != TokenOf(e) && !f.DelegatesReply?
  {
  }

  /** The net after a step, from what is known of each message. */
  lemma NetStep(net: multiset<KeyGenEvent>, c: Stored, env: Env, e: KeyGenEvent, out: seq<KeyGenEvent>, c': Stored, env': Env)
    requires NetOk(net, c, env) && e in net
    requires forall i, j :: 0 <= i < j < |out| ==> TokenOf(out[i]) != TokenOf(out[j])
    requires forall f, g :: f in net && f != e && g in out ==> TokenOf(f) != TokenOf(g)
    requires forall f :: f in net && f != e ==> f in Allowed(c', env')
    requires forall g :: g in out ==> g in Allowed(c', env') && !g.DelegatesReply?
    ensures NetOk(NetAfter(net, e, out), c', env')
  {
    NetKept(net, e, out);
  }

  /** What a step at one peer may do to the shared environment. */
  ghost predicate Writes(env: Env, env': Env, p: Id, account: Option<Data>) {
    && Grows(env, env') && EnvOk(env')
    && (forall key :: account.None? || key != (p, account.value) ==> SameRecord(env, env', key))
  }

  ghost predicate OnlyStore(c: Stored, c': Stored, p: Id) {
    && c'.item == c.item && c'.reports == c.reports
    && forall q :: q != p ==> StoreAt(c', q) == StoreAt(c, q)
  }

  /** The item's guarantees do not rest on the store of p. */
  ghost predicate OnDuty(c: Stored, p: Id) {
    || !Enlisted(c.item, p)
    || (c.item.state == SentToExecutor && c.item.executor.Some? && p == c.item.executor.value.peer)
    || (c.item.state == SentToInitialPinner && IsPinner(c.item.pinners, p)
        && p in c.item.responses && c.item.responses[p] == None)
  }

  /** A message to another peer stays right. */
  lemma EventStable(c: Stored, env: Env, c': Stored, env': Env, f: KeyGenEvent)
    requires f in Allowed(c, env) && !f.DelegatesReply? && !f.ExecutionResponseMsg?
    requires c'.item == c.item && StoreAt(c', f.peer) == StoreAt(c, f.peer) && Grows(env, env')
    requires c.item.account.Some? ==> SameRecord(env, env', (f.peer, c.item.account.value))
    ensures f in Allowed(c', env')
  {
  }

  lemma ResultStable(c: Stored, env: Env, c': Stored, env': Env, f: KeyGenEvent)
    requires f in Allowed(c, env) && f.ExecutionResponseMsg? && c'.item == c.item && Grows(env, env')
    requires forall key :: SameRecord(env, env', key)
    ensures f in Allowed(c', env')
  {
    assert forall p: Id :: SameRecord(env, env', (p, f.result.account));
  }

  /** Apart from the execution's result, no two messages concern the same peer. */
  lemma OthersElsewhere(c: Stored, env: Env, e: KeyGenEvent, f: KeyGenEvent)
    requires e in Allowed(c, env) && f in Allowed(c, env) && DistinctPeers(Roster(c.item))
    requires TokenOf(e) != TokenOf(f)
    requires !e.DelegatesReply? && !f.DelegatesReply? && !e.ExecutionResponseMsg? && !f.ExecutionResponseMsg?
    ensures e.peer != f.peer
  {
    PinnersEnlisted(c.item);
  }

  lemma OtherKept(c: Stored, env: Env, e: KeyGenEvent, f: KeyGenEvent, c': Stored, env': Env)
    requires e in Allowed(c, env) && f in Allowed(c, env) && DistinctPeers(Roster(c.item))
    requires TokenOf(e) != TokenOf(f) && !e.DelegatesReply? && !f.DelegatesReply? && !e.ExecutionResponseMsg?
    requires OnlyStore(c, c', e.peer) && Writes(env, env', e.peer, c.item.account)
    requires c.item.state == SentToExecutor ==> c.item.account == None
    ensures f in Allowed(c', env')
  {
    if f.ExecutionResponseMsg? {
      assert c.item.account == None;
      ResultStable(c, env, c', env', f);
    } else {
      OthersElsewhere(c, env, e, f);
      EventStable(c, env, c', env', f);
    }
  }

  lemma CrewKept(c: Stored, c': Stored, p: Id)
    requires Crew(c) && OnDuty(c, p) && OnlyStore(c, c', p)
    ensures Crew(c')
  {
    PinnersEnlisted(c.item);
  }

  lemma DeployedStable(c: Stored, env: Env, c': Stored, env': Env, p: Id, d: nat)
    requires Deployed(c, env, p, d) && c'.item == c.item && Grows(env, env')
    requires StoreAt(c', p) == StoreAt(c, p) && SameRecord(env, env', (p, c.item.account.value))
    ensures Deployed(c', env', p, d)
  {
  }

  lemma ResponsesKept(c: Stored, env: Env, c': Stored, env': Env, p: Id)
    requires ResponsesOk(c, env) && OnlyStore(c, c', p) && Writes(env, env', p, c.item.account)
    requires p in c.item.responses ==> c.item.responses[p] == None
    requires !IsPinner(c.item.pinners, p) ==> SameRecord(env, env', (p, c.item.account.value))
    ensures ResponsesOk(c', env')
  {
    forall q | q in c.item.responses && c.item.responses[q].Some?
      ensures Deployed(c', env', q, c.item.responses[q].value)
    {
      DeployedStable(c, env, c', env', q, c.item.responses[q].value);
    }
    forall q: Id | HasRecord(env', (q, c.item.account.value)) ensures IsPinner(c.item.pinners, q) {
      if q != p { assert SameRecord(env, env', (q, c.item.account.value)); }
    }
  }

  lemma PinnersKept(c: Stored, c': Stored, p: Id)
    requires OnlyStore(c, c', p) && !IsPinner(c.item.pinners, p)
    ensures forall j :: 0 <= j < |c.item.pinners| ==>
      (AppliedSomehow(c, c.item.pinners[j]) ==> AppliedSomehow(c', c.item.pinners[j]))
  {
    forall j | 0 <= j < |c.item.pinners| && AppliedSomehow(c, c.item.pinners[j])
      ensures AppliedSomehow(c', c.item.pinners[j])
    {
      assert IsPinner(c.item.pinners, c.item.pinners[j].peer);
    }
  }

  lemma ResponsesStage(c: Stored, env: Env, c': Stored, env': Env)
    requires c in InStage(env) && c'.item == c.item && c'.reports == c.reports && ResponsesOk(c', env')
    requires c.item.state == SentToInitialPinner || c.item.state == ReceivedAllPinnerResponse
    ensures c' in InStage(env')
  {
  }

  lemma PinnersStage(c: Stored, env: Env, c': Stored, env': Env)
    requires c in InStage(env) && c'.item == c.item && c'.reports == c.reports
    requires c.item.state != SentToInitialPinner && c.item.state != ReceivedAllPinnerResponse
    requires c.item.state == SentToExecutor ==>
      forall j :: 0 <= j < |c.item.pinners| ==> AppliedSomehow(c', c.item.pinners[j])
    ensures c' in InStage(env')
  {
  }

  lemma StageKept(c: Stored, env: Env, c': Stored, env': Env, p: Id)
    requires c in InStage(env) && Crew(c) && OnDuty(c, p) && OnlyStore(c, c', p)
    requires Writes(env, env', p, c.item.account)
    requires c.item.account.Some? && !IsPinner(c.item.pinners, p) ==> SameRecord(env, env', (p, c.item.account.value))
    ensures c' in InStage(env')
  {
    PinnersEnlisted(c.item);
    if c.item.state == SentToInitialPinner || c.item.state == ReceivedAllPinnerResponse {
      ResponsesKept(c, env, c', env', p);
      ResponsesStage(c, env, c', env');
    } else {
      PinnersKept(c, c', p);
      PinnersStage(c, env, c', env');
    }
  }

  /** A step that changes one peer's store and passes its part on, or drops it. */
  ghost predicate Local(c: Stored, env: Env, e: KeyGenEvent, r: Effect)
    requires !e.DelegatesReply?
  {
    && OnlyStore(c, r.at, e.peer) && OnDuty(c, e.peer) && Writes(env, r.env, e.peer, c.item.account)
    && (c.item.account.Some? && !IsPinner(c.item.pinners, e.peer) ==>
          SameRecord(env, r.env, (e.peer, c.item.account.value)))
    && |r.out| <= 1 && (forall f :: f in r.out ==> TokenOf(f) == TokenOf(e) && f in Allowed(r.at, r.env))
  }

  /** All that is under way after a step at one peer may be. */
  lemma StoreNet(net: multiset<KeyGenEvent>, c: Stored, env: Env, e: KeyGenEvent, r: Effect, f: KeyGenEvent)
    requires StoredOk(c, env) && NetOk(net, c, env) && e in net && !e.DelegatesReply? && !e.ExecutionResponseMsg?
    requires Local(c, env, e, r) && (f in r.out || (f in net && f != e))
    ensures f in Allowed(r.at, r.env) && !f.DelegatesReply?
  {
    assert c.item.state == SentToExecutor ==> c.item.account == None;
    if f !in r.out { OtherKept(c, env, e, f, r.at, r.env); }
  }

  lemma StoreStep(net: multiset<KeyGenEvent>, c: Stored, env: Env, e: KeyGenEvent, r: Effect)
    requires StoredOk(c, env) && NetOk(net, c, env) && e in net && !e.DelegatesReply? && !e.ExecutionResponseMsg?
    requires Local(c, env, e, r)
    ensures StoredOk(r.at, r.env) && NetOk(NetAfter(net, e, r.out), r.at, r.env)
  {
    NetKept(net, e, r.out);
    CrewKept(c, r.at, e.peer);
    StageKept(c, env, r.at, r.env, e.peer);
    forall f | f in NetAfter(net, e, r.out) ensures f in Allowed(r.at, r.env) && !f.DelegatesReply? {
      StoreNet(net, c, env, e, r, f);
    }
  }

  lemma LoseStep(net: multiset<KeyGenEvent>, c: Stored, env: Env, e: KeyGenEvent)
    requires NetOk(net, c, env) && e in net
    ensures NetOk(NetAfter(net, e, []), c, env)
  {
    NetKept(net, e, []);
  }

  /** A profile that arrives, or an application that is passed on for attestation. */
  lemma RelayLocal(c: Stored, env: Env, e: KeyGenEvent, inputs: Inputs)
    requires EnvOk(env) && e in Allowed(c, env) && (e.ProfileReply? || e.ApplyMsg?) && c.item.info.exec.n != 0
    ensures Local(c, env, e, Handle(c, env, e, inputs))
  {
  }

  lemma AtPeerOnly(c: Stored, p: Id, step: PeerStep)
    ensures OnlyStore(c, AtPeer(c, p, step).at, p) && StoreAt(AtPeer(c, p, step).at, p) == step.store
  {
  }

  /** The gate lets every invited peer through, for nobody is invited twice. */
  lemma GateLocal(c: Stored, env: Env, e: KeyGenEvent)
    requires EnvOk(env) && e in Allowed(c, env) && e.CandidateMsg?
    ensures var r := AtPeer(c, e.peer, PeerStepOf(c, env, e));
      && PeerStepOf(c, env, e).ok && r.out == [SignatureChecked(e.peer, e.request)]
      && Local(c, env, e, r)
  {
    AtPeerOnly(c, e.peer, PeerStepOf(c, env, e));
  }

  lemma CandidateLocal(c: Stored, env: Env, e: KeyGenEvent)
    requires EnvOk(env) && e in Allowed(c, env) && e.SignatureChecked? && Valid(c.item.info)
    ensures var r := AtPeer(c, e.peer, PeerStepOf(c, env, e));
      PeerStepOf(c, env, e).ok && Local(c, env, e, r)
  {
    assert FromCandidateRequest(e.request) == Some(c.item.info);
    AtPeerOnly(c, e.peer, PeerStepOf(c, env, e));
  }

  /** The answer is a sharing of a fresh key with one slice closed for each pinner, and
      an account nobody has written under. */
  lemma ResultFresh(item: KeyGenItem, env: Env, exec: ExecutorItem)
    requires EnvOk(env) && exec.info == item.info && RequestReady(item) && |item.pinners| < 256
    ensures var x := ExecutionResult(exec, RequestOf(item), env.nextKey);
      var env' := env.(nextKey := env.nextKey + 1, origin := env.origin[env.nextKey := item.info.taskId]);
      ResultOk(item, env', x) && NoRecords(env', x.account) && EnvOk(env') && Grows(env, env')
  {
    var x := ExecutionResult(exec, RequestOf(item), env.nextKey);
    assert AccountKey(x.account) == Some(env.nextKey);
  }

  /** The executor has its item and answers. */
  lemma ExecutionLocal(c: Stored, env: Env, e: KeyGenEvent)
    requires EnvOk(env) && e in Allowed(c, env) && e.ExecutionRequestMsg? && RequestReady(c.item) && c.item.account == None
    ensures var r := AtPeer(c, e.peer, PeerStepOf(c, env, e));
      PeerStepOf(c, env, e).ok && r.out != [] && Local(c, env, e, r)
  {
    AtPeerOnly(c, e.peer, PeerStepOf(c, env, e));
    ResultFresh(c.item, env, StoreAt(c, e.peer).exec.value);
    var r := AtPeer(c, e.peer, PeerStepOf(c, env, e));
    var x := ExecutionResult(StoreAt(c, e.peer).exec.value, e.execution, env.nextKey);
    assert r.out == [ExecutionResponseMsg(e.peer, x)];
    assert r.out[0] in Allowed(r.at, r.env);
  }

  /** The pinner is found in one of its two guises, and has done nothing since it
      applied; so the conversion of an executor item only meets the state Requested. */
  lemma SliceLocal(c: Stored, env: Env, e: KeyGenEvent)
    requires EnvOk(env) && e in Allowed(c, env) && e.SliceRequestMsg?
    ensures PinnerItemOf(StoreAt(c, e.peer)) == Some(PinnerItem(c.item.info, PinRequested))
    ensures var r := AtPeer(c, e.peer, PeerStepOf(c, env, e));
      PeerStepOf(c, env, e).ok && r.out != [] && Local(c, env, e, r)
  {
    AtPeerOnly(c, e.peer, PeerStepOf(c, env, e));
  }

  /** The key that opens the slice is at hand. */
  lemma UploadLocal(c: Stored, env: Env, e: KeyGenEvent)
    requires EnvOk(env) && e in Allowed(c, env) && e.UploadKeyRegistered?
    ensures var r := AtPeer(c, e.peer, PeerStepOf(c, env, e));
      PeerStepOf(c, env, e).ok && r.out != [] && Local(c, env, e, r)
  {
    AtPeerOnly(c, e.peer, PeerStepOf(c, env, e));
  }

  lemma DeployWrites(c: Stored, env: Env, e: KeyGenEvent)
    requires EnvOk(env) && e in Allowed(c, env) && e.DataUploaded?
    ensures PeerStepOf(c, env, e).ok && Writes(env, PeerStepOf(c, env, e).env, e.peer, c.item.account)
  {
  }

  lemma DeployLocal(c: Stored, env: Env, e: KeyGenEvent)
    requires EnvOk(env) && e in Allowed(c, env) && e.DataUploaded?
    ensures var r := AtPeer(c, e.peer, PeerStepOf(c, env, e));
      PeerStepOf(c, env, e).ok && r.out != [] && Local(c, env, e, r)
  {
    DeployWrites(c, env, e);
    AtPeerOnly(c, e.peer, PeerStepOf(c, env, e));
  }
}
