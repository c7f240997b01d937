/** Every copy of a task's parameters that any node stores is the delegator's. */
module Agreement {
  import opened Types
  import opened KeyGenTypes
  import opened TaskInfos
  import opened Environment
  import opened KeyGenProtocol
  import opened KeyGenInvariant
  import opened KeyGenSafety
  import opened SignTypes
  import opened SignProtocol
  import opened SignInvariant
  import opened SignSafety

  predicate Agrees(store: PeerStore, info: TaskInfo) {
    && (store.exec.Some? ==> store.exec.value.info == info)
    && (store.pin.Some? ==> store.pin.value.info == info)
  }

  ghost predicate PeersAgree(c: Stored) {
    forall p: Id :: Agrees(StoreAt(c, p), c.item.info)
  }

  /** A peer that agrees goes on agreeing, whatever it is sent. */
  lemma PeerAgrees(c: Stored, env: Env, e: KeyGenEvent)
    requires Valid(c.item.info) && IsForPeer(e) && e in Allowed(c, env) && Agrees(StoreAt(c, e.peer), c.item.info)
    ensures Agrees(PeerStepOf(c, env, e).store, c.item.info)
  {
    if e.SignatureChecked? { assert FromCandidateRequest(e.request) == Some(c.item.info); }
  }

  lemma HandleAgrees(c: Stored, env: Env, e: KeyGenEvent, inputs: Inputs)
    requires Valid(c.item.info) && e in Allowed(c, env) && PeersAgree(c)
    requires Handle(c, env, e, inputs).at.item.info == c.item.info
    ensures PeersAgree(Handle(c, env, e, inputs).at)
  {
    var c' := Handle(c, env, e, inputs).at;
    if IsForPeer(e) { PeerAgrees(c, env, e); }
    forall p: Id ensures Agrees(StoreAt(c', p), c'.item.info) {
      assert Agrees(StoreAt(c, p), c.item.info);
    }
  }

  /** Every step of a key generation task keeps all copies equal. */
  lemma PeersKept(t: KeyGenTask, env: Env, a: Action)
    requires Inv(t, env) && EnvOk(env) && Enabled(t, a) && PeersAgree(t.at)
    ensures PeersAgree(Next(t, env, a).0.at)
  {
    NextKeeps(t, env, a);
    if a.Deliver? { HandleAgrees(t.at, env, a.event, a.inputs); }
  }

  ghost predicate SignersAgree(c: SignStored) {
    forall p: Id :: SignStoreAt(c, p).exec.Some? ==> SignStoreAt(c, p).exec.value.info == c.item.info
  }

  lemma SignHandleAgrees(c: SignStored, env: Env, e: SignEvent, i: SignInputs)
    requires e in SignAllowed(c, env) && SignersAgree(c)
    requires SignHandle(c, env, e, i).at.item.info == c.item.info
    ensures SignersAgree(SignHandle(c, env, e, i).at)
  {
    var c' := SignHandle(c, env, e, i).at;
    forall p: Id | SignStoreAt(c', p).exec.Some? ensures SignStoreAt(c', p).exec.value.info == c.item.info {
      assert SignStoreAt(c, p).exec.Some? ==> SignStoreAt(c, p).exec.value.info == c.item.info;
    }
  }

  lemma StoresUntouched(t: SignTask, env: Env, a: SignAction)
    requires SignEnabled(t, a) && !a.SignDeliver? && SignersAgree(t.at)
    ensures SignersAgree(SignNext(t, env, a).0.at)
  {
    var c' := SignNext(t, env, a).0.at;
    assert c'.stores == t.at.stores && c'.item.info == t.at.item.info;
    forall p: Id ensures SignStoreAt(c', p) == SignStoreAt(t.at, p) { }
  }

  /** And so does every step of a signing task. */
  lemma SignersKept(t: SignTask, env: Env, a: SignAction)
    requires SignInv(t, env) && EnvOk(env) && SignEnabled(t, a) && SignersAgree(t.at)
    ensures SignersAgree(SignNext(t, env, a).0.at)
  {
    SignNextKeeps(t, env, a);
    if a.SignDeliver? {
      SignHandleAgrees(t.at, env, a.event, a.inputs);
    } else {
      StoresUntouched(t, env, a);
    }
  }
}
