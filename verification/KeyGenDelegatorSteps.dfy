/** The steps at the delegator keep the key generation invariant. */
module KeyGenDelegatorSteps {
  import opened Types
  import opened SymbolicCrypto
  import opened KeyGenTypes
  import opened TaskInfos
  import opened Environment
  import opened Candidates
  import opened KeyGenElection
  import opened DelegatorKeyGen
  import opened KeyGenProtocol
  import opened KeyGenInvariant
  import opened KeyGenSteps

  // ---------------------------------------------------------------- inviting

  /** Nobody is invited twice, not even in two roles. */
  lemma InvitationsDistinct(info: TaskInfo, delegates: seq<Id>, swarm: seq<Id>)
    requires info.exec.n != 0 && Distinct(delegates) && Distinct(swarm)
    ensures var out := OnDelegates(info, delegates, swarm);
      && (forall i, j :: 0 <= i < j < |out| ==> TokenOf(out[i]) != TokenOf(out[j]))
      && (forall f :: f in out ==>
            f.ProfileReply? || (f.CandidateMsg? && f.request == RequestFor(info, false)))
  {
    var invited := Invited(info.exec.n, info.taskId, swarm, delegates);
    InvitedDistinct(info.exec.n, info.taskId, swarm, delegates);
    var passed := InvitedAreNearest(info.exec.n, info.taskId, swarm, delegates);
    var out := OnDelegates(info, delegates, swarm);
    forall i, j | 0 <= i < j < |out| ensures TokenOf(out[i]) != TokenOf(out[j]) {
      var a := if i < |delegates| then delegates[i] else invited[i - |delegates|];
      var b := if j < |delegates| then delegates[j] else invited[j - |delegates|];
      assert TokenOf(out[i]) == Invitation(a) && TokenOf(out[j]) == Invitation(b);
      assert |delegates| <= j ==> b in invited && b !in delegates;
    }
  }

  lemma FirstContact(c: Stored, env: Env, f: KeyGenEvent)
    requires DelegatesReply in Allowed(c, env)
    requires f.ProfileReply? || (f.CandidateMsg? && f.request == RequestFor(c.item.info, false))
    ensures f in Allowed(c, env)
  {
  }

  lemma DelegatesStep(net: multiset<KeyGenEvent>, c: Stored, env: Env, inputs: Inputs)
    requires c.item.info.exec.n != 0 && NetOk(net, c, env) && DelegatesReply in net
    requires Distinct(inputs.delegates) && Distinct(inputs.swarm)
    ensures NetOk(NetAfter(net, DelegatesReply, OnDelegates(c.item.info, inputs.delegates, inputs.swarm)), c, env)
  {
    var out := OnDelegates(c.item.info, inputs.delegates, inputs.swarm);
    InvitationsDistinct(c.item.info, inputs.delegates, inputs.swarm);
    assert DelegatesReply in Allowed(c, env);
    forall f | f in out ensures f in Allowed(c, env) {
      FirstContact(c, env, f);
    }
    NetStep(net, c, env, DelegatesReply, out, c, env);
  }

  // ---------------------------------------------------------------- electing

  lemma RosterOfInserted(item: KeyGenItem, who: NodeInfo, executor: bool)
    ensures Roster(Inserted(item, who, executor)) == Roster(item) + multiset{who}
  {
  }

  lemma RosterOfElected(item: KeyGenItem)
    requires item.ce != [] && item.pinners == [] && item.executor == None && item.info.exec.n < PoolOf(item).Total()
    ensures Roster(Elect(item).(state := SentToExecutor)) == Roster(item)
  {
    ElectConserves(item);
    var r := Elect(item);
    forall x ensures Roster(r)[x] == Roster(item)[x] {
      assert (multiset{r.executor.value} + multiset(r.pinners) + multiset(r.cip) + multiset(r.ce))[x]
          == (multiset(item.ce) + multiset(item.cip))[x];
    }
  }

  lemma DistinctPeersGrow(item: KeyGenItem, who: NodeInfo)
    requires DistinctPeers(Roster(item)) && !Enlisted(item, who.peer)
    ensures DistinctPeers(Roster(item) + multiset{who})
  {
    assert who !in Roster(item);
  }

  /** The roster after a success has one more name, elected or not. */
  lemma RaRoster(c: Stored, env: Env, who: NodeInfo, executor: bool)
    requires StoredOk(c, env) && c.item.state == InvitedCandidates
    ensures var outcome := OnRaSuccess(c.item, who, executor);
      Roster(outcome.item) == Roster(c.item) + multiset{who}
  {
    SuccessElectsOrWaits(c.item, who, executor);
    var ready := Inserted(c.item, who, executor);
    RosterOfInserted(c.item, who, executor);
    if CandidatesReady(ready) { RosterOfElected(ready); }
  }

  /** Messages about other peers do not notice one more name on the roster. */
  lemma InvitationKept(c: Stored, env: Env, item': KeyGenItem, who: NodeInfo, f: KeyGenEvent)
    requires f in Allowed(c, env) && c.item.state == InvitedCandidates && !f.DelegatesReply?
    requires item'.info == c.item.info && Roster(item') == Roster(c.item) + multiset{who}
    requires TokenOf(f) != Invitation(who.peer)
    ensures f in Allowed(c.(item := item'), env)
  {
    forall w | w in Roster(item') && w.peer != who.peer ensures w in Roster(c.item) {
    }
  }

  lemma WaitingStored(c: Stored, env: Env, who: NodeInfo, executor: bool)
    requires StoredOk(c, env) && c.item.state == InvitedCandidates
    requires !Enlisted(c.item, who.peer) && Applied(c, who, executor)
    requires !CandidatesReady(Inserted(c.item, who, executor))
    ensures StoredOk(c.(item := Inserted(c.item, who, executor)), env)
  {
    RosterOfInserted(c.item, who, executor);
    DistinctPeersGrow(c.item, who);
  }

  /** Everybody the election has placed had applied, and for the place they got. */
  lemma ElectedStored(c: Stored, env: Env, ready: KeyGenItem, elected: KeyGenItem)
    requires Valid(c.item.info) && c.item.info.exec.n <= 254 && c.item.state == InvitedCandidates && c in InStage(env)
    requires ready.info == c.item.info && ready.ce != [] && ready.pinners == [] && ready.executor == None
    requires ready.info.exec.n < PoolOf(ready).Total() && DistinctPeers(Roster(ready))
    requires ready.p2 == None && ready.account == None && ready.responses == map[]
    requires forall w :: w in ready.ce ==> Applied(c, w, true)
    requires forall w :: w in ready.cip ==> Applied(c, w, false)
    requires elected == Elect(ready).(state := SentToExecutor) && RequestReady(elected)
    ensures StoredOk(c.(item := elected), env)
    ensures ExecutionRequestMsg(elected.executor.value.peer, RequestOf(elected)) in Allowed(c.(item := elected), env)
  {
    ElectMembers(ready);
    RosterOfElected(ready);
    var c' := c.(item := elected);
    forall w, executor | Applied(c, w, executor) ensures Applied(c', w, executor) { }
    forall j | 0 <= j < |elected.pinners| ensures AppliedSomehow(c', elected.pinners[j]) {
      assert elected.pinners[j] in elected.pinners;
    }
  }

  lemma ReadyStored(c: Stored, env: Env, who: NodeInfo, executor: bool)
    requires StoredOk(c, env) && c.item.state == InvitedCandidates
    requires !Enlisted(c.item, who.peer) && Applied(c, who, executor)
    requires CandidatesReady(Inserted(c.item, who, executor))
    ensures var outcome := OnRaSuccess(c.item, who, executor);
      && outcome.Done? && outcome.item.executor.Some?
      && StoredOk(c.(item := outcome.item), env)
      && outcome.out == [ExecutionRequestMsg(outcome.item.executor.value.peer, RequestOf(outcome.item))]
      && outcome.out[0] in Allowed(c.(item := outcome.item), env)
  {
    SuccessElectsOrWaits(c.item, who, executor);
    RosterOfInserted(c.item, who, executor);
    DistinctPeersGrow(c.item, who);
    ElectedStored(c, env, Inserted(c.item, who, executor), OnRaSuccess(c.item, who, executor).item);
  }

  lemma RaStored(c: Stored, env: Env, who: NodeInfo, executor: bool)
    requires StoredOk(c, env) && c.item.state == InvitedCandidates
    requires !Enlisted(c.item, who.peer) && Applied(c, who, executor)
    ensures var outcome := OnRaSuccess(c.item, who, executor);
      && outcome.Done?
      && StoredOk(c.(item := outcome.item), env)
      && |outcome.out| <= 1
      && (forall g :: g in outcome.out ==> g.ExecutionRequestMsg? && g in Allowed(c.(item := outcome.item), env))
  {
    if CandidatesReady(Inserted(c.item, who, executor)) {
      ReadyStored(c, env, who, executor);
    } else {
      SuccessElectsOrWaits(c.item, who, executor);
      WaitingStored(c, env, who, executor);
    }
  }

  lemma RaNet(net: multiset<KeyGenEvent>, c: Stored, env: Env, e: KeyGenEvent, item': KeyGenItem, out: seq<KeyGenEvent>)
    requires NetOk(net, c, env) && e in net && e.RaSucceeded? && c.item.state == InvitedCandidates
    requires item'.info == c.item.info && Roster(item') == Roster(c.item) + multiset{NodeInfo(e.peer, e.pub)}
    requires |out| <= 1 && forall g :: g in out ==> g.ExecutionRequestMsg? && g in Allowed(c.(item := item'), env)
    ensures NetOk(NetAfter(net, e, out), c.(item := item'), env)
  {
    forall f | f in net ensures TokenOf(f) != Execution {
      assert f in Allowed(c, env);
    }
    OthersDiffer(net, e);
    forall f | f in net && f != e ensures f in Allowed(c.(item := item'), env) {
      InvitationKept(c, env, item', NodeInfo(e.peer, e.pub), f);
    }
    NetStep(net, c, env, e, out, c.(item := item'), env);
  }

  lemma RaStep(net: multiset<KeyGenEvent>, c: Stored, env: Env, e: KeyGenEvent)
    requires StoredOk(c, env) && NetOk(net, c, env) && e in net && e.RaSucceeded?
    requires c.item.state == InvitedCandidates
    ensures var outcome := OnRaSuccess(c.item, NodeInfo(e.peer, e.pub), e.executor);
      var c' := c.(item := outcome.item);
      outcome.Done? && StoredOk(c', env) && NetOk(NetAfter(net, e, outcome.out), c', env)
  {
    assert e in Allowed(c, env);
    var who := NodeInfo(e.peer, e.pub);
    var outcome := OnRaSuccess(c.item, who, e.executor);
    RaStored(c, env, who, e.executor);
    RaRoster(c, env, who, e.executor);
    RaNet(net, c, env, e, outcome.item, outcome.out);
  }

  // ---------------------------------------------------------------- sharing out

  /** What is stored once the executor has answered. */
  function SharedOut(c: Stored, x: ExecutionResponse): Stored {
    c.(item := OnExecutionResponse(c.item, x).item)
  }

  /** The places for answers are those of the pinners. */
  lemma SharedPlaces(c: Stored, env: Env, x: ExecutionResponse)
    requires ResultOk(c.item, env, x)
    ensures forall p :: p in Awaiting(x.pinners) <==> IsPinner(c.item.pinners, p)
  {
    forall p ensures p in Awaiting(x.pinners) <==> IsPinner(c.item.pinners, p) {
      if IsPinner(c.item.pinners, p) {
        var i :| 0 <= i < |c.item.pinners| && c.item.pinners[i].peer == p;
        assert x.pinners[i].peer == p;
      }
    }
  }

  lemma SharedKeys(c: Stored, env: Env, x: ExecutionResponse)
    requires c.item.responses == map[] && 0 < |c.item.pinners| && ResultOk(c.item, env, x)
    ensures var responses := SharedOut(c, x).item.responses;
      && (forall p :: p in responses <==> IsPinner(c.item.pinners, p))
      && (forall p :: p in responses ==> responses[p] == None)
      && !AllReady(responses)
  {
    SharedPlaces(c, env, x);
    assert SharedOut(c, x).item.responses == Awaiting(x.pinners);
    assert IsPinner(c.item.pinners, c.item.pinners[0].peer);
  }

  lemma SharedResponses(c: Stored, env: Env, x: ExecutionResponse)
    requires 0 < |c.item.pinners| && c.item.responses == map[]
    requires ResultOk(c.item, env, x) && NoRecords(env, x.account)
    ensures ResponsesOk(SharedOut(c, x), env) && !AllReady(SharedOut(c, x).item.responses)
  {
    SharedKeys(c, env, x);
  }

  lemma SlotIs(item: KeyGenItem, i: nat)
    requires DistinctPeers(Roster(item)) && i < |item.pinners|
    ensures IsPinner(item.pinners, item.pinners[i].peer) && SlotOf(item.pinners, item.pinners[i].peer) == i
  {
    PinnersDistinct(item);
  }

  lemma WaitingAllowed(c: Stored, env: Env, p: Id, s: SliceRequest)
    requires Waiting(c, env, p, s) && AppliedSomehow(c, c.item.pinners[SlotOf(c.item.pinners, p)])
    ensures SliceRequestMsg(p, s) in Allowed(c, env)
  {
  }

  lemma SharedWaiting(c: Stored, env: Env, x: ExecutionResponse, i: nat)
    requires ResponsesOk(SharedOut(c, x), env) && ResultOk(c.item, env, x)
    requires i < |c.item.pinners| && AppliedSomehow(c, c.item.pinners[i]) && c.item.responses == map[]
    requires IsPinner(c.item.pinners, c.item.pinners[i].peer) && SlotOf(c.item.pinners, c.item.pinners[i].peer) == i
    ensures SliceRequests(x, c.item.info.taskId)[i] in Allowed(SharedOut(c, x), env)
  {
    assert x.pinners[i] == PinnerSlice(c.item.pinners[i].peer,
      Rsa(c.item.pinners[i].pub, Share(x.p2.secret, c.item.info.exec.n, c.item.info.exec.k, i)));
    var s := SliceRequests(x, c.item.info.taskId)[i];
    WaitingAllowed(SharedOut(c, x), env, s.peer, s.slice);
  }

  lemma SharedSlot(c: Stored, env: Env, x: ExecutionResponse, i: nat)
    requires ResponsesOk(SharedOut(c, x), env) && DistinctPeers(Roster(c.item)) && ResultOk(c.item, env, x)
    requires i < |x.pinners| && AppliedSomehow(c, c.item.pinners[i]) && c.item.responses == map[]
    ensures SliceRequests(x, c.item.info.taskId)[i] in Allowed(SharedOut(c, x), env)
  {
    SlotIs(c.item, i);
    SharedWaiting(c, env, x, i);
  }

  lemma SharedCrew(c: Stored, x: ExecutionResponse)
    requires Crew(c)
    ensures Crew(SharedOut(c, x)) && Roster(SharedOut(c, x).item) == Roster(c.item)
  {
    forall w, executor | Applied(c, w, executor) ensures Applied(SharedOut(c, x), w, executor) { }
  }

  lemma SharedStage(c: Stored, env: Env, x: ExecutionResponse)
    requires ResponsesOk(SharedOut(c, x), env) && !AllReady(SharedOut(c, x).item.responses)
    requires RequestReady(c.item) && c.reports == []
    ensures SharedOut(c, x) in InStage(env)
  {
  }

  lemma SharedStored(c: Stored, env: Env, x: ExecutionResponse)
    requires StoredOk(c, env) && c.item.state == SentToExecutor && ResultOk(c.item, env, x) && NoRecords(env, x.account)
    ensures StoredOk(SharedOut(c, x), env) && ResponsesOk(SharedOut(c, x), env)
  {
    SharedResponses(c, env, x);
    SharedCrew(c, x);
    SharedStage(c, env, x);
  }

  lemma SharedOther(c: Stored, env: Env, x: ExecutionResponse, f: KeyGenEvent)
    requires f in Allowed(c, env) && c.item.state == SentToExecutor
    requires !f.DelegatesReply? && TokenOf(f) != Execution
    ensures f in Allowed(SharedOut(c, x), env) && !TokenOf(f).Slicing?
  {
    assert Roster(SharedOut(c, x).item) == Roster(c.item);
  }

  lemma SharedTokens(c: Stored, env: Env, x: ExecutionResponse)
    requires DistinctPeers(Roster(c.item)) && ResultOk(c.item, env, x)
    ensures var out := SliceRequests(x, c.item.info.taskId);
      && (forall i, j :: 0 <= i < j < |out| ==> TokenOf(out[i]) != TokenOf(out[j]))
      && (forall g :: g in out ==> TokenOf(g).Slicing? && !g.DelegatesReply?)
  {
    PinnersDistinct(c.item);
    var out := SliceRequests(x, c.item.info.taskId);
    forall i | 0 <= i < |out| ensures TokenOf(out[i]) == Slicing(c.item.pinners[i].peer) {
      assert x.pinners[i].peer == c.item.pinners[i].peer;
    }
  }

  lemma SharedAllowed(c: Stored, env: Env, x: ExecutionResponse)
    requires c in InStage(env) && c.item.state == SentToExecutor && DistinctPeers(Roster(c.item))
    requires ResponsesOk(SharedOut(c, x), env) && ResultOk(c.item, env, x)
    ensures forall g :: g in SliceRequests(x, c.item.info.taskId) ==> g in Allowed(SharedOut(c, x), env)
  {
    var out := SliceRequests(x, c.item.info.taskId);
    forall i | 0 <= i < |out| ensures out[i] in Allowed(SharedOut(c, x), env) {
      SharedSlot(c, env, x, i);
    }
  }

  lemma SharedRest(net: multiset<KeyGenEvent>, c: Stored, env: Env, e: KeyGenEvent)
    requires StoredOk(c, env) && NetOk(net, c, env) && e in net && e.ExecutionResponseMsg?
    ensures forall f :: f in net && f != e ==> f in Allowed(SharedOut(c, e.result), env) && !TokenOf(f).Slicing?
  {
    assert e in Allowed(c, env);
    OthersDiffer(net, e);
    forall f | f in net && f != e ensures f in Allowed(SharedOut(c, e.result), env) && !TokenOf(f).Slicing? {
      SharedOther(c, env, e.result, f);
    }
  }

  lemma ExecutionResponseStep(net: multiset<KeyGenEvent>, c: Stored, env: Env, e: KeyGenEvent)
    requires StoredOk(c, env) && NetOk(net, c, env) && e in net && e.ExecutionResponseMsg?
    ensures var c' := SharedOut(c, e.result);
      StoredOk(c', env) && NetOk(NetAfter(net, e, SliceRequests(e.result, c.item.info.taskId)), c', env)
  {
    assert e in Allowed(c, env);
    SharedStored(c, env, e.result);
    SharedTokens(c, env, e.result);
    SharedAllowed(c, env, e.result);
    SharedRest(net, c, env, e);
    NetStep(net, c, env, e, SliceRequests(e.result, c.item.info.taskId), SharedOut(c, e.result), env);
  }

  // ---------------------------------------------------------------- collecting ids

  /** What is stored once a pinner has answered. */
  function Answered(c: Stored, env: Env, p: Id, d: nat, order: seq<Id>): Stored {
    Reported(c, env, OnSliceResponse(c.item, p, d, order)).at
  }

  lemma AnsweredResponses(c: Stored, env: Env, p: Id, d: nat, order: seq<Id>)
    requires ResponsesOk(c, env) && p in c.item.responses && Deployed(c, env, p, d)
    ensures ResponsesOk(Answered(c, env, p, d, order), env)
    ensures Answered(c, env, p, d, order).item.responses.Keys == c.item.responses.Keys
  {
    var c' := Answered(c, env, p, d, order);
    forall q | q in c'.item.responses && c'.item.responses[q].Some?
      ensures Deployed(c', env, q, c'.item.responses[q].value)
    {
      if q != p { assert Deployed(c, env, q, c.item.responses[q].value); }
    }
  }

  lemma AnsweredCrew(c: Stored, env: Env, p: Id, d: nat, order: seq<Id>)
    requires Crew(c)
    ensures Crew(Answered(c, env, p, d, order))
  {
    var c' := Answered(c, env, p, d, order);
    forall w, executor | Applied(c, w, executor) ensures Applied(c', w, executor) { }
  }

  lemma AnsweredReport(c: Stored, env: Env, p: Id, d: nat, order: seq<Id>)
    requires KeysOk(c.item, env) && p in c.item.responses
    ensures var o := OnSliceResponse(c.item, p, d, order); o.ok && (o.report.Some? <==> AllReady(o.item.responses))
  {
  }

  lemma CompleteStage(c: Stored, env: Env, order: seq<Id>)
    requires c.item.state == ReceivedAllPinnerResponse && RequestReady(c.item) && ResponsesOk(c, env)
    requires AllReady(c.item.responses) && IsOrderOf(order, c.item.responses.Keys)
    requires ReportOf(c.item, order).Some? && c.reports == [ReportOf(c.item, order).value]
    ensures c in InStage(env)
  {
  }

  lemma LastParts(c: Stored, env: Env, p: Id, d: nat, order: seq<Id>)
    requires c.reports == [] && p in c.item.responses && KeysOk(c.item, env)
    requires AllReady(c.item.responses[p := Some(d)])
    ensures var c' := Answered(c, env, p, d, order);
      && c'.item == c.item.(responses := c.item.responses[p := Some(d)], state := ReceivedAllPinnerResponse)
      && c'.item.responses.Keys == c.item.responses.Keys
      && ReportOf(c'.item, order).Some? && c'.reports == [ReportOf(c'.item, order).value]
  {
  }

  /** The last answer: the report is made from the order the map is walked in. */
  lemma LastAnswer(c: Stored, env: Env, p: Id, d: nat, order: seq<Id>)
    requires RequestReady(c.item) && c.reports == [] && p in c.item.responses && KeysOk(c.item, env)
    requires ResponsesOk(Answered(c, env, p, d, order), env) && IsOrderOf(order, c.item.responses.Keys)
    requires AllReady(c.item.responses[p := Some(d)])
    ensures Answered(c, env, p, d, order) in InStage(env)
  {
    LastParts(c, env, p, d, order);
    CompleteStage(Answered(c, env, p, d, order), env, order);
  }

  lemma AnsweredStage(c: Stored, env: Env, p: Id, d: nat, order: seq<Id>)
    requires c in InStage(env) && c.item.state == SentToInitialPinner
    requires p in c.item.responses && Deployed(c, env, p, d) && IsOrderOf(order, c.item.responses.Keys)
    ensures Answered(c, env, p, d, order) in InStage(env)
  {
    AnsweredResponses(c, env, p, d, order);
    if AllReady(c.item.responses[p := Some(d)]) { LastAnswer(c, env, p, d, order); }
  }

  /** A peer that has still to answer goes on as before. */
  lemma AnsweredWaiting(c: Stored, env: Env, p: Id, d: nat, order: seq<Id>, f: KeyGenEvent)
    requires f in Allowed(c, env) && TokenOf(f).Slicing? && TokenOf(f) != Slicing(p)
    requires c.item.state == SentToInitialPinner && p in c.item.responses
    ensures f in Allowed(Answered(c, env, p, d, order), env)
  {
    assert Answered(c, env, p, d, order).item.responses[f.peer] == None;
  }

  lemma AnsweredInvited(c: Stored, env: Env, p: Id, d: nat, order: seq<Id>, f: KeyGenEvent)
    requires f in Allowed(c, env) && TokenOf(f).Invitation?
    requires c.item.state == SentToInitialPinner && p in c.item.responses
    ensures f in Allowed(Answered(c, env, p, d, order), env)
  {
    assert Roster(Answered(c, env, p, d, order).item) == Roster(c.item);
  }

  lemma AnsweredOther(c: Stored, env: Env, p: Id, d: nat, order: seq<Id>, f: KeyGenEvent)
    requires f in Allowed(c, env) && !f.DelegatesReply? && TokenOf(f) != Slicing(p)
    requires c.item.state == SentToInitialPinner && p in c.item.responses
    ensures f in Allowed(Answered(c, env, p, d, order), env)
  {
    if TokenOf(f).Slicing? { AnsweredWaiting(c, env, p, d, order, f); }
    else if TokenOf(f).Invitation? { AnsweredInvited(c, env, p, d, order, f); }
  }

  lemma SliceResponseStep(net: multiset<KeyGenEvent>, c: Stored, env: Env, e: KeyGenEvent, order: seq<Id>)
    requires StoredOk(c, env) && NetOk(net, c, env) && e in net && e.SliceResponseMsg?
    requires IsOrderOf(order, c.item.responses.Keys)
    ensures var o := OnSliceResponse(c.item, e.peer, e.deployment, order);
      o.ok && e.peer in c.item.responses && (o.report.Some? <==> AllReady(o.item.responses))
    ensures var c' := Answered(c, env, e.peer, e.deployment, order);
      StoredOk(c', env) && NetOk(NetAfter(net, e, []), c', env)
  {
    assert e in Allowed(c, env);
    AnsweredStage(c, env, e.peer, e.deployment, order);
    AnsweredReport(c, env, e.peer, e.deployment, order);
    AnsweredCrew(c, env, e.peer, e.deployment, order);
    OthersDiffer(net, e);
    forall f | f in net && f != e ensures f in Allowed(Answered(c, env, e.peer, e.deployment, order), env) {
      AnsweredOther(c, env, e.peer, e.deployment, order, f);
    }
    NetStep(net, c, env, e, [], Answered(c, env, e.peer, e.deployment, order), env);
  }
}
