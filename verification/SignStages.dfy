/** The stage of a signing task, which no handler checks, and exactly when it goes back. */
module SignStages {
  import opened Types
  import opened KeyGenTypes
  import opened Environment
  import opened SignTypes
  import opened DelegatorSign
  import opened SignProtocol
  import opened SignInvariant
  import opened SignBookSteps

  function SignRank(s: SignState): nat {
    match s
    case SignInit => 0 case SignInitialized => 1 case FindingDeployments => 2
    case SignSentToExecutor => 3 case CommitResult => 4
  }

  /** From the sending on there is a bundle, and before the delegates are known the task
      has just been set up. */
  ghost predicate Staged(t: SignTask) {
    && (3 <= SignRank(t.at.item.state) ==> t.at.bundles != [])
    && (SignDelegatesReply in t.net ==> SignRank(t.at.item.state) <= 1)
  }

  /** The one case in which the stage goes back: after the commit a slice comes of a
      deployment of the task that has not answered yet. */
  predicate Reopens(c: SignStored, a: SignAction) {
    && c.item.state == CommitResult && a.SignDeliver? && a.event.SliceReply?
    && a.event.deployment in c.item.slices && !HasFound(c.item, a.event.deployment)
  }

  /** What a step does to the stage. */
  ghost predicate Moves(c: SignStored, a: SignAction, c': SignStored) {
    && (SignRank(c'.item.state) < SignRank(c.item.state) <==> Reopens(c, a))
    && (3 <= SignRank(c'.item.state) ==> c'.bundles != [])
  }

  lemma DelegatesMove(c: SignStored, env: Env, i: SignInputs)
    requires SignRank(c.item.state) <= 1
    ensures Moves(c, SignDeliver(SignDelegatesReply, i), SignHandle(c, env, SignDelegatesReply, i).at)
  {
  }

  lemma AttestedMoves(c: SignStored, env: Env, e: SignEvent, i: SignInputs)
    requires c in SignSound(env) && e.ExecutorAttested? && (3 <= SignRank(c.item.state) ==> c.bundles != [])
    ensures Moves(c, SignDeliver(e, i), SignHandle(c, env, e, i).at)
  {
    var o := OnExecutorAttested(c.item, NodeInfo(e.peer, e.pub), i.queue, i.order);
    if c.item.executor.None? {
      NothingFoundYet(c, env);
      if o.item.state == SignSentToExecutor { OneBundle(o.out[0]); }
    }
  }

  lemma ReplyMoves(c: SignStored, env: Env, e: SignEvent, i: SignInputs)
    requires c in SignSound(env) && e.SliceReply? && e in SignAllowed(c, env)
    requires 3 <= SignRank(c.item.state) ==> c.bundles != []
    ensures Moves(c, SignDeliver(e, i), SignHandle(c, env, e, i).at)
  {
    var d := e.deployment;
    if d in c.item.slices && !HasFound(c.item, d) {
      ReceivedOutcome(c, env, e.peer, d, e.slice, i.order);
      var item' := c.item.(slices := c.item.slices[d := Some(KeySliceInfo(e.peer, e.slice))]);
      ReceivedSlices(c, env, c.(item := item', found := c.found + [d]), e.peer, d, e.slice);
    }
  }

  lemma HandleMoves(c: SignStored, env: Env, e: SignEvent, i: SignInputs)
    requires c in SignSound(env) && e in SignAllowed(c, env)
    requires 3 <= SignRank(c.item.state) ==> c.bundles != []
    requires e.SignDelegatesReply? ==> SignRank(c.item.state) <= 1
    ensures Moves(c, SignDeliver(e, i), SignHandle(c, env, e, i).at)
  {
    match e {
      case SignDelegatesReply => DelegatesMove(c, env, i);
      case ExecutorAttested(_, _) => AttestedMoves(c, env, e, i);
      case SliceReply(_, _, _) => ReplyMoves(c, env, e, i);
      case _ =>
    }
  }

  /** No handler asks for the delegates. */
  lemma NobodyAsks(c: SignStored, env: Env, e: SignEvent, i: SignInputs)
    ensures SignDelegatesReply !in SignHandle(c, env, e, i).out
  {
  }

  /** So they are awaited at most before anything else happens. */
  lemma DelegatesOnce(t: SignTask, env: Env, e: SignEvent, i: SignInputs)
    requires SignNetShape(t.net) && e in t.net
    ensures SignDelegatesReply !in SignNetAfter(t.net, e, SignHandle(t.at, env, e, i).out)
  {
    NobodyAsks(t.at, env, e, i);
    var out := SignHandle(t.at, env, e, i).out;
    assert SignDelegatesReply !in multiset(out);
  }

  lemma DeliveryMoves(t: SignTask, env: Env, e: SignEvent, i: SignInputs)
    requires SignInv(t, env) && Staged(t) && e in t.net
    ensures Moves(t.at, SignDeliver(e, i), SignHandle(t.at, env, e, i).at)
  {
    HandleMoves(t.at, env, e, i);
  }

  /** Over every step of a signing task: the stage goes back if and only if the step
      delivers, after the commit, the first slice of one of the task's deployments. */
  lemma StageGoesBackIff(t: SignTask, env: Env, a: SignAction)
    requires SignInv(t, env) && Staged(t) && SignEnabled(t, a)
    ensures var t' := SignNext(t, env, a).0;
      && (SignRank(t'.at.item.state) < SignRank(t.at.item.state) <==> Reopens(t.at, a))
      && Staged(t')
  {
    if a.SignDeliver? {
      DelegatesOnce(t, env, a.event, a.inputs);
      DeliveryMoves(t, env, a.event, a.inputs);
    } else if a.PinnerAttested? {
      AttestingStays(t, env, a);
    }
  }

  lemma AttestingStays(t: SignTask, env: Env, a: SignAction)
    requires a.PinnerAttested?
    ensures var t' := SignNext(t, env, a).0;
      && t'.at.item.state == t.at.item.state && t.at.bundles <= t'.at.bundles
      && (SignDelegatesReply in t'.net ==> SignDelegatesReply in t.net)
  {
  }
}
