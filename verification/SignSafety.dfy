/** What holds in every state a signing task can reach. */
module SignSafety {
  import opened Types
  import opened SymbolicCrypto
  import opened Environment
  import opened SignTypes
  import opened DelegatorSign
  import opened SignProtocol
  import opened SignInvariant
  import opened SignSteps
  import opened SignPeerSteps
  import opened SignBookSteps

  lemma SignHandleKeeps(net: multiset<SignEvent>, c: SignStored, env: Env, e: SignEvent, i: SignInputs)
    requires c in SignSound(env) && SignNetOk(net, c, env) && EnvOk(env) && e in net
    requires e.SignDelegatesReply? ==> Distinct(i.delegates)
    requires IsOrderOf(i.order, c.item.slices.Keys) && IsOrderOf(i.queue, c.item.candidates.Keys)
    ensures SignHandle(c, env, e, i) in SignKept(net, e, c, env)
  {
    match e {
      case SignDelegatesReply => SignDelegatesKept(net, c, env, i);
      case SignProfileReply(_) => ProfileKept(net, c, env, e, i);
      case SignCandidateMsg(_, _) => SignCandidateKept(net, c, env, e, i);
      case SignRequestMsg(_, _) => SignRequestKept(net, c, env, e, i);
      case ExecutorAttested(_, _) => AttestedKept(net, c, env, e, i);
      case SliceQuery(_, _, _) => SliceQueryKept(net, c, env, e, i);
      case SliceReply(_, d, _) =>
        if d in c.item.slices && !HasFound(c.item, d) { ReceivedKept(net, c, env, e, i); }
        else { RefusedKept(net, c, env, e, i); }
      case BundleMsg(_, _) => BundleKept(net, c, env, e, i);
      case CommitMsg(_, _) => CommitKept(net, c, env, e, i);
    }
  }

  lemma SignLoseKeeps(net: multiset<SignEvent>, c: SignStored, env: Env, e: SignEvent)
    requires SignNetOk(net, c, env) && e in net
    ensures SignNetOk(SignNetAfter(net, e, []), c, env)
  {
    SignNetKept(net, net - multiset{e}, []);
  }

  /** Every step of a signing task keeps its invariant and disturbs no record; the
      executor once chosen, the slices once received and the histories stay. */
  lemma SignNextKeeps(t: SignTask, env: Env, a: SignAction)
    requires SignInv(t, env) && EnvOk(env) && SignEnabled(t, a)
    ensures var (t', env') := SignNext(t, env, a);
      && SignInv(t', env') && EnvOk(env') && Grows(env, env') && (forall key :: SameRecord(env, env', key))
      && Unmoved(t.at, t'.at)
  {
    match a {
      case SignDeliver(e, i) =>
        SignHandleKeeps(t.net, t.at, env, e, i);
        assert SignHandle(t.at, env, e, i) in SignKept(t.net, e, t.at, env);
      case SignLose(e) => SignLoseKeeps(t.net, t.at, env, e);
      case PinnerAttested(p, d) => AttestKept(t.net, t.at, env, p, d);
    }
  }

  /** What happens elsewhere does not matter to a signing task. */
  lemma SignFrame(t: SignTask, env: Env, env': Env)
    requires SignInv(t, env) && Grows(env, env')
    ensures SignInv(t, env')
  {
    SoundKept(t.at, env, t.at, env', [0]);
    forall f | f in t.net ensures f in SignAllowed(t.at, env') {
      assert f in SignAllowed(t.at, env);
      if !f.SignDelegatesReply? { SignEventStable(t.at, env, t.at, env', [0], f); }
    }
  }

  lemma SignBeginSound(e: SignEventData, nonce: Data, exec: ExecInfo, ids: seq<nat>, env: Env)
    ensures SignInv(SignBegin(SignStarted(e, nonce, exec, ids)), env)
  {
    var t := SignBegin(SignStarted(e, nonce, exec, ids));
    assert forall d :: !HasFound(t.at.item, d);
    assert t.at in SignSound(env);
    assert SignDelegatesReply in SignAllowed(t.at, env);
  }
}
