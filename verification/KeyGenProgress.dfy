/** What key generation does when nothing is lost: with candidates enough every delivery
    brings it nearer to the report, and it cannot stop before. */
module KeyGenProgress {
  import opened Types
  import opened KeyGenTypes
  import opened TaskInfos
  import opened Environment
  import opened KeyGenElection
  import opened Candidates
  import opened DelegatorKeyGen
  import opened KeyGenProtocol
  import opened KeyGenInvariant
  import opened KeyGenDelegatorSteps
  import opened KeyGenSafety

  // ---------------------------------------------------------------- how much is left

  /** The deliveries that a message can still cause, itself included. */
  function Hops(e: KeyGenEvent, n: nat): nat {
    match e
    case DelegatesReply => 0
    case ProfileReply(_) => 5
    case CandidateMsg(_, _) => 4
    case SignatureChecked(_, _) => 3
    case ApplyMsg(_, _, _) => 2
    case RaSucceeded(_, _, _) => 1
    case ExecutionRequestMsg(_, _) => 4 * n + 2
    case ExecutionResponseMsg(_, _) => 4 * n + 1
    case SliceRequestMsg(_, _) => 4
    case UploadKeyRegistered(_, _, _, _) => 3
    case DataUploaded(_, _, _, _, _, _) => 2
    case SliceResponseMsg(_, _) => 1
  }

  ghost function Weight(net: multiset<KeyGenEvent>, n: nat): nat
    decreases |net|
  {
    if net == multiset{} then 0
    else
      var e :| e in net;
      Hops(e, n) + Weight(net - multiset{e}, n)
  }

  lemma EitherOrder<T>(m: multiset<T>, a: T, b: T)
    ensures m - multiset{a} - multiset{b} == m - multiset{b} - multiset{a}
  {
  }

  lemma {:induction false} WeightOut(net: multiset<KeyGenEvent>, n: nat, e: KeyGenEvent)
    requires e in net
    ensures Weight(net, n) == Hops(e, n) + Weight(net - multiset{e}, n)
    decreases |net|
  {
    var x :| x in net && Weight(net, n) == Hops(x, n) + Weight(net - multiset{x}, n);
    if x != e {
      WeightOut(net - multiset{x}, n, e);
      WeightOut(net - multiset{e}, n, x);
      EitherOrder(net, x, e);
    }
  }

  function SentWeight(out: seq<KeyGenEvent>, n: nat): nat {
    if out == [] then 0 else SentWeight(out[..|out| - 1], n) + Hops(out[|out| - 1], n)
  }

  lemma {:induction false} WeightIn(net: multiset<KeyGenEvent>, n: nat, out: seq<KeyGenEvent>)
    ensures Weight(net + multiset(out), n) == Weight(net, n) + SentWeight(out, n)
  {
    if out == [] {
      assert net + multiset(out) == net;
    } else {
      var init, last := out[..|out| - 1], out[|out| - 1];
      assert out == init + [last];
      WeightIn(net, n, init);
      WeightOut(net + multiset(out), n, last);
      assert net + multiset(out) - multiset{last} == net + multiset(init);
    }
  }

  lemma {:induction false} SameWeights(out: seq<KeyGenEvent>, n: nat)
    requires forall e :: e in out ==> e.SliceRequestMsg?
    ensures SentWeight(out, n) == 4 * |out|
  {
    if out != [] {
      assert out[|out| - 1] in out && forall e :: e in out[..|out| - 1] ==> e in out;
      SameWeights(out[..|out| - 1], n);
    }
  }

  ghost function Measure(t: KeyGenTask): nat {
    var n := t.at.item.info.exec.n;
    Weight(t.net, n) + if t.at.item.state == InvitedCandidates then 4 * n + 3 else 0
  }

  // ---------------------------------------------------------------- who is under way

  ghost function Tokens(net: multiset<KeyGenEvent>): set<Token> {
    set e | e in net :: TokenOf(e)
  }

  /** The peers whose invitation is under way. */
  ghost function Pending(net: multiset<KeyGenEvent>): set<Id> {
    set e | e in net && TokenOf(e).Invitation? :: e.peer
  }

  /** Whether an invitation is to become executor. */
  predicate ToExecute(e: KeyGenEvent) {
    match e
    case ProfileReply(_) => true
    case CandidateMsg(_, r) => r.executor
    case SignatureChecked(_, r) => r.executor
    case ApplyMsg(_, _, executor) => executor
    case RaSucceeded(_, _, executor) => executor
    case _ => false
  }

  /** Enough candidates have arrived or are on their way, an executor among them. */
  ghost predicate Supplied(net: multiset<KeyGenEvent>, item: KeyGenItem) {
    && item.info.exec.n + 1 <= |Pending(net)| + |item.ce| + |item.cip|
    && (item.ce != [] || exists e :: e in net && ToExecute(e))
  }

  /** What the delegator waits for is under way. */
  ghost predicate Live(t: KeyGenTask) {
    && DelegatesReply !in t.net
    && match t.at.item.state
       case InvitedCandidates => Supplied(t.net, t.at.item)
       case SentToExecutor => Execution in Tokens(t.net)
       case SentToInitialPinner =>
         forall p :: p in t.at.item.responses && t.at.item.responses[p] == None ==> Slicing(p) in Tokens(t.net)
       case _ => true
  }

  /** A task that waits for something that is under way is not stuck. */
  lemma NeverStuck(t: KeyGenTask, env: Env)
    requires Inv(t, env) && Live(t) && t.net == multiset{}
    ensures t.at.reports != []
  {
    assert t.at in InStage(env);
    assert Tokens(t.net) == {} && Pending(t.net) == {};
  }

  // ---------------------------------------------------------------- one delivery

  /** A message that is passed on: the same part, one hop nearer. */
  predicate PassedOn(e: KeyGenEvent, f: KeyGenEvent, n: nat) {
    TokenOf(f) == TokenOf(e) && ToExecute(f) == ToExecute(e) && Hops(e, n) == Hops(f, n) + 1
      && !f.DelegatesReply? && (TokenOf(e).Invitation? ==> f.peer == e.peer)
  }

  predicate IsPassedOn(e: KeyGenEvent) {
    !e.DelegatesReply? && !e.RaSucceeded? && !e.ExecutionResponseMsg? && !e.SliceResponseMsg?
  }

  lemma InvitationPasses(c: Stored, env: Env, e: KeyGenEvent, inputs: Inputs)
    requires c.item.info.exec.n != 0 && e in Allowed(c, env) && IsPassedOn(e) && TokenOf(e).Invitation?
    requires HandlerSucceeds(c, env, e, inputs)
    ensures var r := Handle(c, env, e, inputs);
      |r.out| == 1 && PassedOn(e, r.out[0], c.item.info.exec.n) && r.at.item == c.item
  {
  }

  lemma WorkPasses(c: Stored, env: Env, e: KeyGenEvent, inputs: Inputs)
    requires c.item.info.exec.n != 0 && IsPassedOn(e) && !TokenOf(e).Invitation?
    requires HandlerSucceeds(c, env, e, inputs)
    ensures var r := Handle(c, env, e, inputs);
      |r.out| == 1 && PassedOn(e, r.out[0], c.item.info.exec.n) && r.at.item == c.item
  {
  }

  lemma Passes(c: Stored, env: Env, e: KeyGenEvent, inputs: Inputs)
    requires c.item.info.exec.n != 0 && e in Allowed(c, env) && IsPassedOn(e) && HandlerSucceeds(c, env, e, inputs)
    ensures var r := Handle(c, env, e, inputs);
      |r.out| == 1 && PassedOn(e, r.out[0], c.item.info.exec.n) && r.at.item == c.item
  {
    if TokenOf(e).Invitation? { InvitationPasses(c, env, e, inputs); } else { WorkPasses(c, env, e, inputs); }
  }

  lemma WeightPassed(net: multiset<KeyGenEvent>, e: KeyGenEvent, f: KeyGenEvent, n: nat)
    requires e in net && Hops(e, n) == Hops(f, n) + 1
    ensures Weight(NetAfter(net, e, [f]), n) + 1 == Weight(net, n)
  {
    WeightOut(net, n, e);
    WeightIn(net - multiset{e}, n, [f]);
    assert SentWeight([f], n) == Hops(f, n) by { assert [f][..0] == []; }
  }

  lemma PartsPassed(net: multiset<KeyGenEvent>, e: KeyGenEvent, f: KeyGenEvent, n: nat)
    requires OneEach(net) && e in net && PassedOn(e, f, n)
    ensures var net' := NetAfter(net, e, [f]);
      && (forall x :: x in net' <==> (x in net && x != e) || x == f)
      && Tokens(net') == Tokens(net) && Pending(net') == Pending(net)
  {
    var net' := NetAfter(net, e, [f]);
    forall k ensures k in Tokens(net') <==> k in Tokens(net) {
      if k in Tokens(net) {
        var x :| x in net && TokenOf(x) == k;
        assert (if x == e then f else x) in net';
      }
    }
    forall p ensures p in Pending(net') <==> p in Pending(net) {
      if p in Pending(net) {
        var x :| x in net && TokenOf(x).Invitation? && x.peer == p;
        assert (if x == e then f else x) in net';
      }
    }
  }

  lemma TokensPassed(net: multiset<KeyGenEvent>, e: KeyGenEvent, f: KeyGenEvent, n: nat)
    requires OneEach(net) && e in net && PassedOn(e, f, n)
    ensures var net' := NetAfter(net, e, [f]);
      && Tokens(net') == Tokens(net) && Pending(net') == Pending(net)
      && Weight(net', n) + 1 == Weight(net, n)
      && ((exists x :: x in net && ToExecute(x)) ==> exists x :: x in net' && ToExecute(x))
      && (DelegatesReply !in net ==> DelegatesReply !in net')
  {
    WeightPassed(net, e, f, n);
    PartsPassed(net, e, f, n);
    if x :| x in net && ToExecute(x) {
      assert (if x == e then f else x) in NetAfter(net, e, [f]) && ToExecute(if x == e then f else x);
    }
  }

  /** Where the same parts are played before the same item, what is waited for is still
      under way. */
  lemma SameTokensLive(t: KeyGenTask, t': KeyGenTask)
    requires Live(t) && t'.at.item == t.at.item && DelegatesReply !in t'.net
    requires Tokens(t'.net) == Tokens(t.net) && Pending(t'.net) == Pending(t.net)
    requires (exists x :: x in t.net && ToExecute(x)) ==> exists x :: x in t'.net && ToExecute(x)
    ensures Live(t')
  {
  }

  /** The states nearer to the report than t in which nothing is missing. */
  ghost function Nearer(t: KeyGenTask): iset<KeyGenTask> {
    iset t': KeyGenTask | Live(t') && Measure(t') < Measure(t)
  }

  /** Passing a message on keeps everything that is waited for under way. */
  lemma PassStep(t: KeyGenTask, env: Env, e: KeyGenEvent, inputs: Inputs)
    requires OneEach(t.net) && e in t.net && Live(t) && t.at.item.info.exec.n != 0
    requires e in Allowed(t.at, env) && IsPassedOn(e) && HandlerSucceeds(t.at, env, e, inputs)
    ensures var r := Handle(t.at, env, e, inputs); KeyGenTask(NetAfter(t.net, e, r.out), r.at) in Nearer(t)
  {
    Passes(t.at, env, e, inputs);
    var r := Handle(t.at, env, e, inputs);
    PassNearer(t, e, r.out[0], r.at);
    assert r.out == [r.out[0]];
  }

  lemma PassNearer(t: KeyGenTask, e: KeyGenEvent, f: KeyGenEvent, at: Stored)
    requires OneEach(t.net) && e in t.net && Live(t) && PassedOn(e, f, t.at.item.info.exec.n) && at.item == t.at.item
    ensures KeyGenTask(NetAfter(t.net, e, [f]), at) in Nearer(t)
  {
    TokensPassed(t.net, e, f, t.at.item.info.exec.n);
    SameTokensLive(t, KeyGenTask(NetAfter(t.net, e, [f]), at));
  }

  /** What is left when a message is taken off. */
  lemma Without(net: multiset<KeyGenEvent>, e: KeyGenEvent, out: seq<KeyGenEvent>, n: nat)
    requires OneEach(net) && e in net
    ensures var net' := NetAfter(net, e, out);
      && (forall x :: x in net' <==> (x in net && x != e) || x in out)
      && (forall k :: k in Tokens(net) && k != TokenOf(e) ==> k in Tokens(net'))
      && (forall x :: x in out ==> TokenOf(x) in Tokens(net'))
      && Weight(net', n) + Hops(e, n) == Weight(net, n) + SentWeight(out, n)
  {
    var rest, net' := net - multiset{e}, NetAfter(net, e, out);
    WeightOut(net, n, e);
    WeightIn(rest, n, out);
    assert forall x :: x in out <==> x in multiset(out);
    assert forall x :: x in net' <==> (x in net && x != e) || x in out;
    forall k | k in Tokens(net) && k != TokenOf(e) ensures k in Tokens(net') {
      var x :| x in net && TokenOf(x) == k;
    }
  }

  lemma OneLess<T>(all: set<T>, rest: set<T>, x: T)
    requires x in all && rest == all - {x}
    ensures |rest| + 1 == |all|
  {
  }

  lemma PendingRest(net: multiset<KeyGenEvent>, e: KeyGenEvent)
    requires OneEach(net) && e in net && TokenOf(e).Invitation?
    ensures Pending(NetAfter(net, e, [])) == Pending(net) - {e.peer}
  {
    var net' := NetAfter(net, e, []);
    Without(net, e, [], 0);
    forall p ensures p in Pending(net') <==> p in Pending(net) - {e.peer} {
      if p in Pending(net) - {e.peer} {
        var x :| x in net && TokenOf(x).Invitation? && x.peer == p;
        assert x in net';
      }
    }
  }

  lemma PendingWithout(net: multiset<KeyGenEvent>, e: KeyGenEvent)
    requires OneEach(net) && e in net && TokenOf(e).Invitation?
    ensures var net' := NetAfter(net, e, []);
      Pending(net') == Pending(net) - {e.peer} && |Pending(net')| + 1 == |Pending(net)|
  {
    PendingRest(net, e);
    assert e.peer in Pending(net);
    OneLess(Pending(net), Pending(NetAfter(net, e, [])), e.peer);
  }

  /** A candidate that arrives while others are still awaited. */
  lemma ArrivalSupplies(net: multiset<KeyGenEvent>, item: KeyGenItem, e: KeyGenEvent)
    requires OneEach(net) && e in net && e.RaSucceeded? && Supplied(net, item)
    ensures Supplied(NetAfter(net, e, []), Inserted(item, NodeInfo(e.peer, e.pub), e.executor))
  {
    PendingWithout(net, e);
    Without(net, e, [], 0);
    if item.ce == [] && !e.executor {
      var x :| x in net && ToExecute(x);
      assert x in NetAfter(net, e, []);
    }
  }

  /** A success that is ignored. */
  lemma IgnoredNearer(t: KeyGenTask, e: KeyGenEvent)
    requires OneEach(t.net) && e in t.net && e.RaSucceeded? && Live(t) && t.at.item.state != InvitedCandidates
    ensures KeyGenTask(NetAfter(t.net, e, []), t.at) in Nearer(t)
  {
    Without(t.net, e, [], t.at.item.info.exec.n);
  }

  lemma WaitsNearer(t: KeyGenTask, e: KeyGenEvent, at: Stored)
    requires OneEach(t.net) && e in t.net && e.RaSucceeded? && Live(t) && t.at.item.state == InvitedCandidates
    requires at.item == Inserted(t.at.item, NodeInfo(e.peer, e.pub), e.executor)
    ensures KeyGenTask(NetAfter(t.net, e, []), at) in Nearer(t)
  {
    Without(t.net, e, [], t.at.item.info.exec.n);
    ArrivalSupplies(t.net, t.at.item, e);
  }

  lemma ElectsNearer(t: KeyGenTask, e: KeyGenEvent, f: KeyGenEvent, at: Stored)
    requires OneEach(t.net) && e in t.net && e.RaSucceeded? && Live(t) && t.at.item.state == InvitedCandidates
    requires f.ExecutionRequestMsg? && at.item.state == SentToExecutor && at.item.info == t.at.item.info
    ensures KeyGenTask(NetAfter(t.net, e, [f]), at) in Nearer(t)
  {
    var n: nat := t.at.item.info.exec.n;
    Without(t.net, e, [f], n);
    assert f in [f];
    assert SentWeight([f], n) == 4 * n + 2 by { assert [f][..0] == []; }
  }

  lemma RaStepNearer(t: KeyGenTask, env: Env, e: KeyGenEvent, inputs: Inputs)
    requires OneEach(t.net) && e in t.net && e.RaSucceeded? && Live(t)
    requires t.at.item.state == InvitedCandidates ==> Collecting(t.at.item)
    requires t.at.item.info.exec.n != 0 && BagWalked(t.at.item, e, inputs.bag)
    ensures var r := Handle(t.at, env, e, inputs); KeyGenTask(NetAfter(t.net, e, r.out), r.at) in Nearer(t)
  {
    AttestedIsApplied(t.at.item, e, inputs.bag);
    var r := Handle(t.at, env, e, inputs);
    if t.at.item.state == InvitedCandidates {
      SuccessElectsOrWaits(t.at.item, NodeInfo(e.peer, e.pub), e.executor);
      if r.out == [] { WaitsNearer(t, e, r.at); } else { ElectsNearer(t, e, r.out[0], r.at); }
    } else {
      IgnoredNearer(t, e);
    }
  }

  lemma SliceToken(x: ExecutionResponse, taskId: Id, i: nat)
    requires i < |x.pinners|
    ensures var out := SliceRequests(x, taskId); out[i] in out && TokenOf(out[i]) == Slicing(x.pinners[i].peer)
  {
  }

  lemma RequestSent(net: multiset<KeyGenEvent>, e: KeyGenEvent, x: ExecutionResponse, taskId: Id, p: Id)
    requires p in Awaiting(x.pinners)
    ensures Slicing(p) in Tokens(NetAfter(net, e, SliceRequests(x, taskId)))
  {
    var i :| 0 <= i < |x.pinners| && x.pinners[i].peer == p;
    SliceToken(x, taskId, i);
    assert SliceRequests(x, taskId)[i] in multiset(SliceRequests(x, taskId));
  }

  lemma RequestsWeigh(net: multiset<KeyGenEvent>, e: KeyGenEvent, taskId: Id, n: nat)
    requires OneEach(net) && e in net && e.ExecutionResponseMsg? && |e.result.pinners| == n
    ensures Weight(NetAfter(net, e, SliceRequests(e.result, taskId)), n) + 1 == Weight(net, n)
    ensures DelegatesReply !in net ==> DelegatesReply !in NetAfter(net, e, SliceRequests(e.result, taskId))
  {
    Without(net, e, SliceRequests(e.result, taskId), n);
    SameWeights(SliceRequests(e.result, taskId), n);
  }

  lemma RequestsUnderWay(net: multiset<KeyGenEvent>, e: KeyGenEvent, taskId: Id, n: nat)
    requires OneEach(net) && e in net && e.ExecutionResponseMsg? && |e.result.pinners| == n
    ensures var net' := NetAfter(net, e, SliceRequests(e.result, taskId));
      && Weight(net', n) + 1 == Weight(net, n)
      && (forall p :: p in Awaiting(e.result.pinners) ==> Slicing(p) in Tokens(net'))
      && (DelegatesReply !in net ==> DelegatesReply !in net')
  {
    RequestsWeigh(net, e, taskId, n);
    forall p | p in Awaiting(e.result.pinners)
      ensures Slicing(p) in Tokens(NetAfter(net, e, SliceRequests(e.result, taskId)))
    {
      RequestSent(net, e, e.result, taskId, p);
    }
  }

  /** The executor's answer: a request to every pinner it names. */
  lemma ResponseNearer(t: KeyGenTask, e: KeyGenEvent, at: Stored)
    requires OneEach(t.net) && e in t.net && e.ExecutionResponseMsg? && Live(t)
    requires t.at.item.state == SentToExecutor && t.at.item.responses == map[]
    requires |e.result.pinners| == t.at.item.info.exec.n && at.item == OnExecutionResponse(t.at.item, e.result).item
    ensures KeyGenTask(NetAfter(t.net, e, SliceRequests(e.result, t.at.item.info.taskId)), at) in Nearer(t)
  {
    RequestsUnderWay(t.net, e, t.at.item.info.taskId, t.at.item.info.exec.n);
  }

  lemma AnswerNearer(t: KeyGenTask, e: KeyGenEvent, at: Stored)
    requires OneEach(t.net) && e in t.net && e.SliceResponseMsg? && Live(t)
    requires t.at.item.state == SentToInitialPinner && at.item.info == t.at.item.info
    requires at.item.state == SentToInitialPinner || at.item.state == ReceivedAllPinnerResponse
    requires at.item.responses == t.at.item.responses[e.peer := Some(e.deployment)]
    ensures KeyGenTask(NetAfter(t.net, e, []), at) in Nearer(t)
  {
    Without(t.net, e, [], t.at.item.info.exec.n);
  }

  lemma RaNearer(t: KeyGenTask, env: Env, e: KeyGenEvent, inputs: Inputs)
    requires Inv(t, env) && Live(t) && e in t.net && e.RaSucceeded? && BagWalked(t.at.item, e, inputs.bag)
    ensures var r := Handle(t.at, env, e, inputs); KeyGenTask(NetAfter(t.net, e, r.out), r.at) in Nearer(t)
  {
    assert t.at in InStage(env);
    RaStepNearer(t, env, e, inputs);
  }

  lemma ExecutorNearer(t: KeyGenTask, env: Env, e: KeyGenEvent, inputs: Inputs)
    requires Inv(t, env) && Live(t) && e in t.net && e.ExecutionResponseMsg?
    ensures var r := Handle(t.at, env, e, inputs); KeyGenTask(NetAfter(t.net, e, r.out), r.at) in Nearer(t)
  {
    assert e in Allowed(t.at, env) && t.at in InStage(env);
    ResponseNearer(t, e, SharedOut(t.at, e.result));
  }

  /** What an answer leaves of the delegator's item. */
  lemma AnswerLeaves(c: Stored, env: Env, e: KeyGenEvent, inputs: Inputs)
    requires e.SliceResponseMsg? && e.peer in c.item.responses && c.item.info.exec.n != 0
    ensures var r := Handle(c, env, e, inputs);
      && r.out == [] && r.at.item.info == c.item.info
      && (r.at.item.state == c.item.state || r.at.item.state == ReceivedAllPinnerResponse)
      && r.at.item.responses == c.item.responses[e.peer := Some(e.deployment)]
  {
  }

  lemma PinnerNearer(t: KeyGenTask, env: Env, e: KeyGenEvent, inputs: Inputs)
    requires Inv(t, env) && Live(t) && e in t.net && e.SliceResponseMsg?
    ensures var r := Handle(t.at, env, e, inputs); KeyGenTask(NetAfter(t.net, e, r.out), r.at) in Nearer(t)
  {
    assert e in Allowed(t.at, env);
    AnswerLeaves(t.at, env, e, inputs);
    AnswerNearer(t, e, Handle(t.at, env, e, inputs).at);
  }

  lemma PassedNearer(t: KeyGenTask, env: Env, e: KeyGenEvent, inputs: Inputs)
    requires Inv(t, env) && Live(t) && e in t.net && IsPassedOn(e) && HandlerSucceeds(t.at, env, e, inputs)
    ensures var r := Handle(t.at, env, e, inputs); KeyGenTask(NetAfter(t.net, e, r.out), r.at) in Nearer(t)
  {
    assert e in Allowed(t.at, env);
    PassStep(t, env, e, inputs);
  }

  lemma HandleNearer(t: KeyGenTask, env: Env, e: KeyGenEvent, inputs: Inputs)
    requires Inv(t, env) && Live(t) && e in t.net && HandlerSucceeds(t.at, env, e, inputs)
    requires BagWalked(t.at.item, e, inputs.bag)
    ensures var r := Handle(t.at, env, e, inputs); KeyGenTask(NetAfter(t.net, e, r.out), r.at) in Nearer(t)
  {
    if e.RaSucceeded? { RaNearer(t, env, e, inputs); }
    else if e.ExecutionResponseMsg? { ExecutorNearer(t, env, e, inputs); }
    else if e.SliceResponseMsg? { PinnerNearer(t, env, e, inputs); }
    else { PassedNearer(t, env, e, inputs); }
  }

  /** Every delivery keeps all that is waited for under way, and leaves less to do. */
  lemma DeliveryProgresses(t: KeyGenTask, env: Env, e: KeyGenEvent, inputs: Inputs)
    requires Inv(t, env) && EnvOk(env) && Live(t) && Enabled(t, Deliver(e, inputs))
    ensures Next(t, env, Deliver(e, inputs)).0 in Nearer(t)
  {
    NextKeeps(t, env, Deliver(e, inputs));
    HandleNearer(t, env, e, inputs);
  }

  // ---------------------------------------------------------------- whole runs

  /** Where a run leads, if each of its actions can be taken. */
  ghost function GenAfter(t: KeyGenTask, env: Env, actions: seq<Action>): (r: Option<(KeyGenTask, Env)>)
    requires t.at.item.info.exec.n != 0
    ensures r.Some? ==> r.value.0.at.item.info.exec.n != 0
  {
    if actions == [] then Some((t, env))
    else
      match GenAfter(t, env, actions[..|actions| - 1])
      case None => None
      case Some(s) =>
        var a := actions[|actions| - 1];
        if Enabled(s.0, a) && Next(s.0, s.1, a).0.at.item.info.exec.n != 0 then Some(Next(s.0, s.1, a)) else None
  }

  lemma {:induction false} GenRunKeeps(t: KeyGenTask, env: Env, actions: seq<Action>)
    requires Inv(t, env) && EnvOk(env) && GenAfter(t, env, actions).Some?
    ensures var s := GenAfter(t, env, actions).value; Inv(s.0, s.1) && EnvOk(s.1)
  {
    if actions != [] {
      GenRunKeeps(t, env, actions[..|actions| - 1]);
      var s := GenAfter(t, env, actions[..|actions| - 1]).value;
      NextKeeps(s.0, s.1, actions[|actions| - 1]);
    }
  }

  /** A run without losses has an end, and when it is there the report has been made. */
  lemma {:induction false} LosslessRunReports(t: KeyGenTask, env: Env, run: seq<Action>)
    requires Inv(t, env) && EnvOk(env) && Live(t) && GenAfter(t, env, run).Some?
    requires forall i :: 0 <= i < |run| ==> run[i].Deliver?
    ensures var s := GenAfter(t, env, run).value;
      && Inv(s.0, s.1) && EnvOk(s.1) && Live(s.0) && |run| + Measure(s.0) <= Measure(t)
      && (s.0.net == multiset{} ==> s.0.at.reports != [])
  {
    if run != [] {
      LosslessRunReports(t, env, run[..|run| - 1]);
      var s := GenAfter(t, env, run[..|run| - 1]).value;
      var a := run[|run| - 1];
      NextKeeps(s.0, s.1, a);
      DeliveryProgresses(s.0, s.1, a.event, a.inputs);
    }
    var s := GenAfter(t, env, run).value;
    if s.0.net == multiset{} { NeverStuck(s.0, s.1); }
  }

  ghost predicate CanReport(t: KeyGenTask, env: Env)
    requires t.at.item.info.exec.n != 0
  {
    exists actions :: GenAfter(t, env, actions).Some? && GenAfter(t, env, actions).value.0.at.reports != []
  }

  lemma DeliveryThere(t: KeyGenTask, env: Env) returns (a: Action)
    requires Inv(t, env) && EnvOk(env) && Live(t) && t.net != multiset{}
    ensures Enabled(t, a) && Next(t, env, a).0 in Nearer(t) && Next(t, env, a).0.at.item.info == t.at.item.info
  {
    var e :| e in t.net;
    var order := OrderExists(t.at.item.responses.Keys);
    var bag: seq<string> := [];
    if e.RaSucceeded? {
      bag := OrderExists(RaProperties.BagOf(Attestation(t.at.item.info.taskId, e.pub, e.executor)).Keys);
    }
    a := Deliver(e, Inputs([], [], order, bag));
    NextKeeps(t, env, a);
    DeliveryProgresses(t, env, e, Inputs([], [], order, bag));
  }

  lemma OneMore(t0: KeyGenTask, env0: Env, actions: seq<Action>, a: Action)
    requires t0.at.item.info.exec.n != 0 && GenAfter(t0, env0, actions).Some?
    requires GenAfter(t0, env0, actions).value.0.at.item.info.exec.n != 0
    requires Enabled(GenAfter(t0, env0, actions).value.0, a)
    requires var s := GenAfter(t0, env0, actions).value; Next(s.0, s.1, a).0.at.item.info.exec.n != 0
    ensures var s := GenAfter(t0, env0, actions).value; GenAfter(t0, env0, actions + [a]) == Some(Next(s.0, s.1, a))
  {
    assert (actions + [a])[..|actions|] == actions;
  }

  /** What is not stuck can be carried to its end. */
  lemma {:induction false} RunOn(t0: KeyGenTask, env0: Env, actions: seq<Action>)
    requires Inv(t0, env0) && EnvOk(env0) && GenAfter(t0, env0, actions).Some?
    requires Live(GenAfter(t0, env0, actions).value.0)
    ensures CanReport(t0, env0)
    decreases Measure(GenAfter(t0, env0, actions).value.0)
  {
    GenRunKeeps(t0, env0, actions);
    var s := GenAfter(t0, env0, actions).value;
    if s.0.net == multiset{} {
      NeverStuck(s.0, s.1);
    } else {
      var a := DeliveryThere(s.0, s.1);
      OneMore(t0, env0, actions, a);
      RunOn(t0, env0, actions + [a]);
    }
  }

  // ---------------------------------------------------------------- the start

  lemma InvitationAt(info: TaskInfo, delegates: seq<Id>, swarm: seq<Id>, i: nat)
    requires info.exec.n != 0 && i < |OnDelegates(info, delegates, swarm)|
    ensures var peers := delegates + Invited(info.exec.n, info.taskId, swarm, delegates);
      var e := OnDelegates(info, delegates, swarm)[i];
      |peers| == |OnDelegates(info, delegates, swarm)| && TokenOf(e) == Invitation(peers[i]) && e.peer == peers[i]
  {
  }

  /** The peers that are written to, in order. */
  lemma InvitedPeersDistinct(info: TaskInfo, delegates: seq<Id>, swarm: seq<Id>)
    requires info.exec.n != 0 && Distinct(delegates) && Distinct(swarm)
    ensures Distinct(delegates + Invited(info.exec.n, info.taskId, swarm, delegates))
  {
    InvitationsDistinct(info, delegates, swarm);
    var out := OnDelegates(info, delegates, swarm);
    var peers := delegates + Invited(info.exec.n, info.taskId, swarm, delegates);
    forall i, j | 0 <= i < j < |peers| ensures peers[i] != peers[j] {
      InvitationAt(info, delegates, swarm, i);
      InvitationAt(info, delegates, swarm, j);
      assert TokenOf(out[i]) != TokenOf(out[j]);
    }
  }

  lemma PendingIff(info: TaskInfo, delegates: seq<Id>, swarm: seq<Id>, p: Id)
    requires info.exec.n != 0
    ensures p in Pending(multiset(OnDelegates(info, delegates, swarm)))
      <==> p in delegates + Invited(info.exec.n, info.taskId, swarm, delegates)
  {
    var out := OnDelegates(info, delegates, swarm);
    var peers := delegates + Invited(info.exec.n, info.taskId, swarm, delegates);
    if p in peers {
      var i :| 0 <= i < |peers| && peers[i] == p;
      InvitationAt(info, delegates, swarm, i);
      assert out[i] in multiset(out);
    }
    if p in Pending(multiset(out)) {
      var e :| e in multiset(out) && TokenOf(e).Invitation? && e.peer == p;
      var i :| 0 <= i < |out| && out[i] == e;
      InvitationAt(info, delegates, swarm, i);
    }
  }

  lemma InvitedPending(info: TaskInfo, delegates: seq<Id>, swarm: seq<Id>)
    requires info.exec.n != 0 && Distinct(delegates) && Distinct(swarm)
    ensures |Pending(multiset(OnDelegates(info, delegates, swarm)))|
         == |delegates| + |Invited(info.exec.n, info.taskId, swarm, delegates)|
  {
    var out := OnDelegates(info, delegates, swarm);
    var peers := delegates + Invited(info.exec.n, info.taskId, swarm, delegates);
    InvitedPeersDistinct(info, delegates, swarm);
    DistinctCount(peers);
    forall p ensures p in Pending(multiset(out)) <==> p in Elements(peers) {
      PendingIff(info, delegates, swarm, p);
    }
    assert Pending(multiset(out)) == Elements(peers);
  }

  /** There is a delegate, and with the invited pinners there are n + 1 peers to write to. */
  predicate Peopled(info: TaskInfo, inputs: Inputs)
    requires info.exec.n != 0
  {
    inputs.delegates != []
      && info.exec.n + 1 <= |inputs.delegates| + |Invited(info.exec.n, info.taskId, inputs.swarm, inputs.delegates)|
  }

  lemma InvitationsExecuteIff(info: TaskInfo, delegates: seq<Id>, swarm: seq<Id>)
    requires info.exec.n != 0
    ensures (exists e :: e in multiset(OnDelegates(info, delegates, swarm)) && ToExecute(e)) <==> delegates != []
  {
    var out := OnDelegates(info, delegates, swarm);
    if delegates == [] {
      forall e | e in multiset(out) ensures !ToExecute(e) { OnlyPinners(info, swarm, e); }
    } else {
      assert out[0] == ProfileReply(delegates[0]) && out[0] in multiset(out) && ToExecute(out[0]);
    }
  }

  /** What a task has once the delegates are known: enough exactly if there is a delegate and
      there are n + 1 peers to write to. */
  lemma StartSuppliedIff(item: KeyGenItem, env: Env, inputs: Inputs)
    requires item.ce == [] && item.cip == [] && item.info.exec.n != 0
    requires Distinct(inputs.delegates) && Distinct(inputs.swarm)
    ensures var t := Next(Begin(item), env, Deliver(DelegatesReply, inputs)).0;
      && t.at.item == item && DelegatesReply !in t.net
      && (Supplied(t.net, item) <==> Peopled(item.info, inputs))
  {
    var out := OnDelegates(item.info, inputs.delegates, inputs.swarm);
    InvitedPending(item.info, inputs.delegates, inputs.swarm);
    assert NetAfter(multiset{DelegatesReply}, DelegatesReply, out) == multiset(out);
    InvitationsDistinct(item.info, inputs.delegates, inputs.swarm);
    InvitationsExecuteIff(item.info, inputs.delegates, inputs.swarm);
  }

  /** Without delegates nobody is asked to execute. */
  lemma OnlyPinners(info: TaskInfo, swarm: seq<Id>, e: KeyGenEvent)
    requires info.exec.n != 0 && e in OnDelegates(info, [], swarm)
    ensures !ToExecute(e)
  {
    var out := PinnerInvitations(info, Invited(info.exec.n, info.taskId, swarm, []));
    assert OnDelegates(info, [], swarm) == out;
    var i :| 0 <= i < |out| && out[i] == e;
    assert out[i].CandidateMsg? && out[i].request == RequestFor(info, false);
  }

  // ---------------------------------------------------------------- too few

  /** Too few candidates, or none to execute, have arrived or are on their way. */
  ghost predicate Short(net: multiset<KeyGenEvent>, item: KeyGenItem) {
    || |Pending(net)| + |item.ce| + |item.cip| <= item.info.exec.n
    || (item.ce == [] && forall e :: e in net ==> !ToExecute(e))
  }

  /** A task that will never elect. */
  ghost predicate Hopeless(t: KeyGenTask) {
    t.at.item.state == InvitedCandidates && DelegatesReply !in t.net && Short(t.net, t.at.item)
  }

  /** Once the delegates are known a task is either supplied or short. */
  lemma SuppliedOrShort(net: multiset<KeyGenEvent>, item: KeyGenItem)
    ensures Short(net, item) <==> !Supplied(net, item)
  {
  }

  lemma LossStaysShort(net: multiset<KeyGenEvent>, item: KeyGenItem, e: KeyGenEvent)
    requires e in net && Short(net, item)
    ensures Short(NetAfter(net, e, []), item)
  {
    var net' := NetAfter(net, e, []);
    assert forall x :: x in net' ==> x in net;
    SubsetSize(Pending(net'), Pending(net));
  }

  lemma PassStaysShort(net: multiset<KeyGenEvent>, item: KeyGenItem, e: KeyGenEvent, f: KeyGenEvent)
    requires OneEach(net) && e in net && Short(net, item) && PassedOn(e, f, item.info.exec.n)
    ensures Short(NetAfter(net, e, [f]), item)
  {
    PartsPassed(net, e, f, item.info.exec.n);
  }

  /** An arrival does not make up for candidates that are missing. */
  lemma ArrivalStaysShort(net: multiset<KeyGenEvent>, item: KeyGenItem, e: KeyGenEvent)
    requires OneEach(net) && e in net && e.RaSucceeded? && Short(net, item) && item.info.exec.n <= 254
    ensures var item' := Inserted(item, NodeInfo(e.peer, e.pub), e.executor);
      && Short(NetAfter(net, e, []), item') && (item.pinners == [] ==> !CandidatesReady(item'))
      && (DelegatesReply !in net ==> DelegatesReply !in NetAfter(net, e, []))
  {
    PendingWithout(net, e);
    Without(net, e, [], 0);
  }

  lemma ArrivalCollected(t: KeyGenTask, env: Env, e: KeyGenEvent, inputs: Inputs)
    requires t.at.item.info.exec.n != 0 && t.at.item.state == InvitedCandidates
    requires Enabled(t, Deliver(e, inputs)) && e.RaSucceeded?
    requires !CandidatesReady(Inserted(t.at.item, NodeInfo(e.peer, e.pub), e.executor))
    ensures Next(t, env, Deliver(e, inputs)).0 ==
      KeyGenTask(NetAfter(t.net, e, []), t.at.(item := Inserted(t.at.item, NodeInfo(e.peer, e.pub), e.executor)))
  {
    AttestedIsApplied(t.at.item, e, inputs.bag);
  }

  lemma ArrivalHopeless(t: KeyGenTask, env: Env, e: KeyGenEvent, inputs: Inputs)
    requires Inv(t, env) && Hopeless(t) && Enabled(t, Deliver(e, inputs)) && e.RaSucceeded?
    ensures Hopeless(Next(t, env, Deliver(e, inputs)).0)
  {
    assert t.at in InStage(env);
    ArrivalStaysShort(t.net, t.at.item, e);
    ArrivalCollected(t, env, e, inputs);
  }

  lemma PassHopeless(t: KeyGenTask, env: Env, e: KeyGenEvent, inputs: Inputs)
    requires Inv(t, env) && Hopeless(t) && e in t.net && HandlerSucceeds(t.at, env, e, inputs) && !e.RaSucceeded?
    ensures var r := Handle(t.at, env, e, inputs); Hopeless(KeyGenTask(NetAfter(t.net, e, r.out), r.at))
  {
    assert e in Allowed(t.at, env);
    Passes(t.at, env, e, inputs);
    var r := Handle(t.at, env, e, inputs);
    assert r.out == [r.out[0]];
    PassStaysShort(t.net, t.at.item, e, r.out[0]);
    PartsPassed(t.net, e, r.out[0], t.at.item.info.exec.n);
  }

  /** Nothing that can happen helps a task that is short of candidates. */
  lemma HopelessStays(t: KeyGenTask, env: Env, a: Action)
    requires Inv(t, env) && EnvOk(env) && Enabled(t, a) && Hopeless(t)
    ensures Hopeless(Next(t, env, a).0)
  {
    NextKeeps(t, env, a);
    match a {
      case Deliver(e, inputs) =>
        if e.RaSucceeded? { ArrivalHopeless(t, env, e, inputs); } else { PassHopeless(t, env, e, inputs); }
      case Lose(e) =>
        LossStaysShort(t.net, t.at.item, e);
        assert forall x :: x in NetAfter(t.net, e, []) ==> x in t.net;
    }
  }

  lemma {:induction false} HopelessRun(t: KeyGenTask, env: Env, actions: seq<Action>)
    requires Inv(t, env) && EnvOk(env) && Hopeless(t) && GenAfter(t, env, actions).Some?
    ensures Hopeless(GenAfter(t, env, actions).value.0)
  {
    if actions != [] {
      var init := actions[..|actions| - 1];
      HopelessRun(t, env, init);
      GenRunKeeps(t, env, init);
      var s := GenAfter(t, env, init).value;
      HopelessStays(s.0, s.1, actions[|actions| - 1]);
    }
  }

  /** A task whose candidates are being collected can come to its report if and only if
      nothing that it needs is missing. */
  lemma CanReportIffSupplied(t: KeyGenTask, env: Env)
    requires Inv(t, env) && EnvOk(env) && t.at.item.state == InvitedCandidates && DelegatesReply !in t.net
    ensures CanReport(t, env) <==> Supplied(t.net, t.at.item)
  {
    SuppliedOrShort(t.net, t.at.item);
    if Supplied(t.net, t.at.item) {
      assert GenAfter(t, env, []) == Some((t, env));
      RunOn(t, env, []);
    } else {
      forall actions | GenAfter(t, env, actions).Some? ensures GenAfter(t, env, actions).value.0.at.reports == [] {
        HopelessRun(t, env, actions);
        GenRunKeeps(t, env, actions);
        var s := GenAfter(t, env, actions).value;
        assert s.0.at in InStage(s.1);
      }
    }
  }

  /** Once the delegates are known a task can come to its report if and only if there is a
      delegate, and delegates and invited pinners together are n + 1 or more. */
  lemma StartReportsIff(item: KeyGenItem, env: Env, inputs: Inputs)
    requires Inv(Begin(item), env) && EnvOk(env)
    requires Distinct(inputs.delegates) && Distinct(inputs.swarm)
    ensures var (t, env') := Next(Begin(item), env, Deliver(DelegatesReply, inputs));
      && t.at.item.info.exec.n != 0
      && (CanReport(t, env') <==> Peopled(item.info, inputs))
  {
    assert DelegatesReply in Allowed(Begin(item).at, env);
    RosterEmpty(item);
    NextKeeps(Begin(item), env, Deliver(DelegatesReply, inputs));
    StartSuppliedIff(item, env, inputs);
    var (t, env') := Next(Begin(item), env, Deliver(DelegatesReply, inputs));
    CanReportIffSupplied(t, env');
  }

  lemma RosterEmpty(item: KeyGenItem)
    requires Roster(item) == multiset{}
    ensures item.ce == [] && item.cip == []
  {
    assert |multiset(item.ce)| == |item.ce| && |multiset(item.cip)| == |item.cip|;
    assert |Roster(item)| == 0;
  }
}
