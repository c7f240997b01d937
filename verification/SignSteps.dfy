/** Each delivery, loss and attestation keeps the signing invariant. */
module SignSteps {
  import opened Types
  import opened SymbolicCrypto
  import opened Environment
  import opened SignTypes
  import opened DelegatorSign
  import opened SignProtocol
  import opened SignInvariant

  // ---------------------------------------------------------------- the net

  lemma {:induction false} InviteeOnce(out: seq<SignEvent>, f: SignEvent)
    requires Invitee(f).Some?
    requires forall i, j :: 0 <= i < j < |out| && Invitee(out[i]).Some? ==> Invitee(out[i]) != Invitee(out[j])
    ensures multiset(out)[f] <= 1
  {
    if out != [] {
      var last := |out| - 1;
      InviteeOnce(out[..last], f);
      assert out == out[..last] + [out[last]];
      if f == out[last] { assert f !in out[..last]; }
    }
  }

  /** Sending messages that invite nobody new, or people who are not on their way. */
  lemma SignNetKept(net: multiset<SignEvent>, rest: multiset<SignEvent>, out: seq<SignEvent>)
    requires SignNetShape(net) && rest <= net && SignDelegatesReply !in out
    requires forall i, j :: 0 <= i < j < |out| && Invitee(out[i]).Some? ==> Invitee(out[i]) != Invitee(out[j])
    requires forall f, g :: f in rest && g in out && Invitee(g).Some? ==> Invitee(f) != Invitee(g)
    requires SignDelegatesReply in rest ==> out == []
    ensures SignNetShape(rest + multiset(out))
    ensures forall f :: f in rest + multiset(out) <==> f in rest || f in out
  {
    var net' := rest + multiset(out);
    forall f ensures f in net' <==> f in rest || f in out {
      assert f in out <==> f in multiset(out);
    }
    forall f | f in net' && (Invitee(f).Some? || f.SignDelegatesReply?) ensures net'[f] == 1 {
      if Invitee(f).Some? {
        InviteeOnce(out, f);
        if f in out { assert rest[f] == 0; } else { assert multiset(out)[f] == 0; }
      } else {
        assert multiset(out)[f] == 0;
      }
    }
    forall f, g | f in net' && g in net' && Invitee(f).Some? && Invitee(f) == Invitee(g) ensures f == g {
      if f in out && g in out {
        var i :| 0 <= i < |out| && out[i] == f;
        var j :| 0 <= j < |out| && out[j] == g;
        assert i == j;
      }
    }
  }

  /** The net after a step, from what is known of each message. */
  lemma SignNetStep(net: multiset<SignEvent>, c: SignStored, env: Env, e: SignEvent, out: seq<SignEvent>, c': SignStored, env': Env)
    requires SignNetShape(net) && e in net
    requires forall i, j :: 0 <= i < j < |out| && Invitee(out[i]).Some? ==> Invitee(out[i]) != Invitee(out[j])
    requires forall f, g :: f in net - multiset{e} && g in out && Invitee(g).Some? ==> Invitee(f) != Invitee(g)
    requires forall f :: f in net - multiset{e} ==> f in SignAllowed(c', env')
    requires forall g :: g in out ==> g in SignAllowed(c', env') && !g.SignDelegatesReply?
    requires SignDelegatesReply !in net - multiset{e}
    ensures SignNetOk(SignNetAfter(net, e, out), c', env')
  {
    SignNetKept(net, net - multiset{e}, out);
  }

  /** Nothing that a message relies on is taken back, except at the peer being served. */
  ghost predicate Later(c: SignStored, env: Env, c': SignStored, env': Env, p: Id) {
    && Grows(env, env')
    && c'.item.info == c.item.info && c'.item.account == c.item.account && c'.item.transaction == c.item.transaction
    && (c.item.executor.Some? ==> c'.item.executor == c.item.executor)
    && (c.item.executor.None? && c'.item.executor.Some? ==> c'.item.executor.value.peer == p)
    && c.bundles <= c'.bundles
    && (forall q :: q != p ==> SignStoreAt(c', q) == SignStoreAt(c, q))
  }

  lemma ForExecutorStable(c: SignStored, env: Env, c': SignStored, env': Env, p: Id, d: nat, slice: Data)
    requires ForExecutor(c, env, d, slice) && Later(c, env, c', env', p)
    ensures ForExecutor(c', env', d, slice)
  {
    PayloadStable(env, env', d);
  }

  lemma SignedStable(c: SignStored, env: Env, c': SignStored, env': Env, p: Id, w: Data)
    requires Signed(c, w) && Later(c, env, c', env', p)
    ensures Signed(c', w)
  {
    var i :| 0 <= i < |c.bundles| && SignedFrom(c, c.bundles[i]) == Some(w);
    assert c'.bundles[i] == c.bundles[i];
    assert SignedFrom(c', c'.bundles[i]) == Some(w);
  }

  lemma SignEventStable(c: SignStored, env: Env, c': SignStored, env': Env, p: Id, f: SignEvent)
    requires f in SignAllowed(c, env) && Later(c, env, c', env', p)
    requires !f.SignDelegatesReply?
    requires Invitee(f) != Some(p) ||
      (SignStoreAt(c', p) == SignStoreAt(c, p) && c'.item.executor == c.item.executor)
    ensures f in SignAllowed(c', env')
  {
    match f {
      case SliceReply(_, d, slice) => ForExecutorStable(c, env, c', env', p, d, slice);
      case CommitMsg(_, w) => SignedStable(c, env, c', env', p, w);
      case BundleMsg(_, b) => assert b in c'.bundles;
      case _ =>
    }
  }

  // ---------------------------------------------------------------- the books

  /** The item is as it was but for its state, and so are the histories. */
  predicate SameBooks(c: SignStored, c': SignStored) {
    && c'.item == c.item.(state := c'.item.state) && c'.found == c.found && c'.bundles == c.bundles
    && c'.accepted == c.accepted && c'.asked == c.asked
  }

  lemma SoundKept(c: SignStored, env: Env, c': SignStored, env': Env, p: Id)
    requires c in SignSound(env) && Later(c, env, c', env', p) && SameBooks(c, c') && ExecutorHolds(c')
    requires forall w :: w in c'.commits ==> w in c.commits || Signed(c', w)
    ensures c' in SignSound(env')
  {
    assert forall d :: HasFound(c'.item, d) <==> HasFound(c.item, d);
    forall d | HasFound(c.item, d) ensures ForExecutor(c', env', d, c.item.slices[d].value.slice) {
      ForExecutorStable(c, env, c', env', p, d, c.item.slices[d].value.slice);
    }
    forall i: nat | i < |c.bundles| ensures BundleOk(c', i) {
      assert BundleOk(c, i);
    }
    forall p, d ensures Queued(c'.item, p, d) == Queued(c.item, p, d) { }
    forall w | w in c.commits ensures Signed(c', w) {
      SignedStable(c, env, c', env', p, w);
    }
  }

  /** What is left when a message is taken off the net. */
  lemma RestOfNet(net: multiset<SignEvent>, e: SignEvent, f: SignEvent)
    requires SignNetShape(net) && e in net && f in net - multiset{e}
    ensures f in net && !f.SignDelegatesReply? && (Invitee(e).Some? ==> Invitee(f) != Invitee(e))
    ensures e.SignDelegatesReply? ==> Invitee(f).None?
  {
  }

  /** The step serves p, and nothing else on the net concerns p. */
  ghost predicate Serves(c: SignStored, e: SignEvent, c': SignStored, p: Id) {
    || Invitee(e) == Some(p)
    || (c'.item.executor == c.item.executor
        && ((c.item.executor.Some? && c.item.executor.value.peer == p) || SignStoreAt(c', p) == SignStoreAt(c, p)))
  }

  lemma RestAllowed(net: multiset<SignEvent>, c: SignStored, env: Env, e: SignEvent, c': SignStored, env': Env, p: Id, f: SignEvent)
    requires SignNetOk(net, c, env) && e in net && f in net - multiset{e}
    requires Later(c, env, c', env', p) && Serves(c, e, c', p)
    ensures f in SignAllowed(c', env') && !f.SignDelegatesReply? && (Invitee(e).Some? ==> Invitee(f) != Invitee(e))
  {
    RestOfNet(net, e, f);
    assert f in SignAllowed(c, env);
    SignEventStable(c, env, c', env', p, f);
  }

  /** Any step that serves one peer and sends no invitation but the one it received. */
  lemma ServeStep(net: multiset<SignEvent>, c: SignStored, env: Env, e: SignEvent, out: seq<SignEvent>,
                  c': SignStored, env': Env, p: Id)
    requires SignNetOk(net, c, env) && e in net
    requires Later(c, env, c', env', p) && Serves(c, e, c', p)
    requires forall g :: g in out ==> g in SignAllowed(c', env') && !g.SignDelegatesReply?
    requires (forall g :: g in out ==> Invitee(g).None?) || (|out| == 1 && Invitee(out[0]) == Invitee(e))
    ensures SignNetOk(SignNetAfter(net, e, out), c', env')
  {
    forall f | f in net - multiset{e}
      ensures f in SignAllowed(c', env') && !f.SignDelegatesReply? && (Invitee(e).Some? ==> Invitee(f) != Invitee(e))
    {
      RestAllowed(net, c, env, e, c', env', p, f);
    }
    SignNetStep(net, c, env, e, out, c', env');
  }
}
