/** What can be read in the messages and in the delegators' items: without a private key
    nothing of a wallet key, and with private keys of pinners their own slices and no more. */
module Secrecy {
  import opened Types
  import opened SymbolicCrypto
  import opened KeyGenTypes
  import opened Environment
  import opened KeyGenProtocol
  import opened KeyGenInvariant
  import opened SignTypes
  import opened DelegatorSign
  import opened PeerSign
  import opened SignProtocol
  import opened SignInvariant
  import opened SignResults
  import opened Wallet
  import opened EndToEnd

  /** All that a holder of these private RSA keys reads in a value. A block is fetched by its
      cid. Hashes, public keys and signatures give nothing away, and a box under an AES key
      stays closed, for no AES key is to be read. */
  function Shown(keys: set<nat>, x: Data): set<Data> {
    match x
    case Rsa(pub, payload) => {x} + if pub.id in keys then Shown(keys, payload) else {}
    case Cid(block) => {x} + Shown(keys, block)
    case MultiSig(_, parts, _) => {x} + (set i, y | 0 <= i < |parts| && y in Shown(keys, parts[i]) :: y)
    case Witness(_, parts, signatures, _) =>
      {x} + (set i, y | 0 <= i < |parts| && y in Shown(keys, parts[i]) :: y)
        + (set i, y | 0 <= i < |signatures| && y in Shown(keys, signatures[i]) :: y)
    case _ => {x}
  }

  predicate Sensitive(x: Data) { x.Secret? || x.Share? || x.AesKey? }

  /** Without keys nothing sensitive is to be read in it. */
  predicate Sealed(x: Data) {
    forall y :: y in Shown({}, x) ==> !Sensitive(y)
  }

  // ---------------------------------------------------------------- key generation

  function SliceData(s: SliceRequest): set<Data> { {s.p2, s.slice, s.account} }

  /** The values in a message of key generation. */
  function Carried(e: KeyGenEvent): set<Data> {
    match e
    case ExecutionRequestMsg(_, x) => {x.p1}
    case ExecutionResponseMsg(_, x) => {x.p2, x.account} + (set i | 0 <= i < |x.pinners| :: x.pinners[i].slice)
    case SliceRequestMsg(_, s) => SliceData(s)
    case UploadKeyRegistered(_, s, _, _) => SliceData(s)
    case DataUploaded(_, s, _, _, cid, url) => SliceData(s) + {cid, url}
    case _ => {}
  }

  /** The values that the delegator stores. */
  function StoredData(item: KeyGenItem): set<Data> {
    {item.p1, item.nonce} + (if item.p2.Some? then {item.p2.value} else {})
      + (if item.account.Some? then {item.account.value} else {})
  }

  lemma AccountSealed(k: nat, p1: Data, p2: Data, taskType: string)
    requires Sealed(p1) && Sealed(p2)
    ensures Sealed(MultiSig(k, [p1, p2], taskType))
  {
    var parts := [p1, p2];
    forall y | y in Shown({}, MultiSig(k, parts, taskType)) ensures !Sensitive(y) {
      if y != MultiSig(k, parts, taskType) {
        var i :| 0 <= i < |parts| && y in Shown({}, parts[i]);
        assert parts[i] == p1 || parts[i] == p2;
      }
    }
  }

  lemma KeysSealed(item: KeyGenItem, env: Env)
    requires KeysOk(item, env) && Sealed(item.p1)
    ensures Sealed(item.p2.value) && Sealed(item.account.value)
  {
    AccountSealed(item.info.exec.k, item.p1, item.p2.value, item.info.exec.taskType);
  }

  lemma EventSealed(c: Stored, env: Env, e: KeyGenEvent, x: Data)
    requires e in Allowed(c, env) && Sealed(c.item.p1) && x in Carried(e)
    ensures Sealed(x)
  {
    if e.ExecutionResponseMsg? {
      KeysSealed(c.item.(p2 := Some(e.result.p2), account := Some(e.result.account)), env);
    } else if !e.ExecutionRequestMsg? {
      KeysSealed(c.item, env);
    }
  }

  lemma ItemSealed(t: KeyGenTask, env: Env, x: Data)
    requires Inv(t, env) && Sealed(t.at.item.p1) && Sealed(t.at.item.nonce) && x in StoredData(t.at.item)
    ensures Sealed(x)
  {
    assert t.at in InStage(env);
    if t.at.item.account.Some? || t.at.item.p2.Some? { KeysSealed(t.at.item, env); }
  }

  /** In every reachable world: whoever reads a message of a key generation task, or what its
      delegator stores, but has no private key, reads nothing of the wallet key, of its
      slices or of the keys they are deployed under. */
  lemma NothingToRead(w: World, id: Id, x: Data)
    requires Reachable(w) && id in w.gens
    requires Sealed(w.gens[id].at.item.p1) && Sealed(w.gens[id].at.item.nonce)
    requires x in StoredData(w.gens[id].at.item) || exists e :: e in w.gens[id].net && x in Carried(e)
    ensures Sealed(x)
  {
    GenIn(w, id);
    if x in StoredData(w.gens[id].at.item) {
      ItemSealed(w.gens[id], w.env, x);
    } else {
      var e :| e in w.gens[id].net && x in Carried(e);
      EventSealed(w.gens[id].at, w.env, e, x);
    }
  }

  // ---------------------------------------------------------------- some of the pinners

  /** The slices of the executor's response. */
  function SlicesOf(x: ExecutionResponse): (r: seq<Data>)
    ensures |r| == |x.pinners| && forall i :: 0 <= i < |r| ==> r[i] == x.pinners[i].slice
  {
    seq(|x.pinners|, i requires 0 <= i < |x.pinners| => x.pinners[i].slice)
  }

  /** The pinners whose private key is held. */
  function Held(keys: set<nat>, pinners: seq<NodeInfo>): set<nat> {
    set i | 0 <= i < |pinners| && pinners[i].pub.id in keys
  }

  ghost predicate ReadFrom(keys: set<nat>, x: ExecutionResponse, y: Data) {
    exists i :: 0 <= i < |x.pinners| && y in Shown(keys, x.pinners[i].slice)
  }

  lemma SliceShows(item: KeyGenItem, env: Env, x: ExecutionResponse, keys: set<nat>, i: nat, y: Data)
    requires ResultOk(item, env, x) && i < |x.pinners| && y.Share?
    ensures y in Shown(keys, x.pinners[i].slice) <==>
      i in Held(keys, item.pinners) && y == Share(x.p2.secret, item.info.exec.n, item.info.exec.k, i)
  {
    var share := Share(x.p2.secret, item.info.exec.n, item.info.exec.k, i);
    assert x.pinners[i].slice == Rsa(item.pinners[i].pub, share);
    assert Shown(keys, share) == {share};
  }

  /** With some pinners' keys exactly their slices are read. */
  lemma ReadExactly(item: KeyGenItem, env: Env, x: ExecutionResponse, keys: set<nat>, y: Data)
    requires ResultOk(item, env, x) && y.Share?
    ensures ReadFrom(keys, x, y) <==>
      exists i :: i in Held(keys, item.pinners) && y == Share(x.p2.secret, item.info.exec.n, item.info.exec.k, i)
  {
    forall i | 0 <= i < |x.pinners|
      ensures y in Shown(keys, x.pinners[i].slice) <==>
        i in Held(keys, item.pinners) && y == Share(x.p2.secret, item.info.exec.n, item.info.exec.k, i)
    {
      SliceShows(item, env, x, keys, i, y);
    }
  }

  function SharesAt(secret: Data, n: nat, k: nat, order: seq<nat>): (r: seq<Data>)
    ensures |r| == |order| && forall j :: 0 <= j < |r| ==> r[j] == Share(secret, n, k, order[j])
  {
    seq(|order|, j requires 0 <= j < |order| => Share(secret, n, k, order[j]))
  }

  /** Slices of one sharing with their indices among some are no more than those. */
  lemma {:induction false} SharesBounded(slices: set<Data>, secret: Data, n: nat, k: nat, held: set<nat>)
    requires forall s :: s in slices ==> s.Share? && s == Share(secret, n, k, s.index) && s.index in held
    ensures |slices| <= |held|
  {
    if slices != {} {
      var s :| s in slices;
      SharesBounded(slices - {s}, secret, n, k, held - {s.index});
    }
  }

  /** The wallet key can be recovered from what is read in the executor's response. */
  ghost predicate Breaks(keys: set<nat>, x: ExecutionResponse)
    requires x.p2.PublicOf?
  {
    exists slices :: (forall s :: s in slices ==> ReadFrom(keys, x, s)) && ShamirRecovery(1, slices) == Some(x.p2.secret)
  }

  lemma BreaksOnlyWith(item: KeyGenItem, env: Env, x: ExecutionResponse, keys: set<nat>, slices: seq<Data>)
    requires ResultOk(item, env, x) && x.p2.PublicOf? && x.p2.secret.Secret?
    requires forall s :: s in slices ==> ReadFrom(keys, x, s)
    requires ShamirRecovery(1, slices) == Some(x.p2.secret)
    ensures item.info.exec.k <= |Held(keys, item.pinners)|
  {
    var first := slices[0];
    assert first in slices && first.Share? && OneSharing(first.secret, first.n, first.k, slices);
    ReadExactly(item, env, x, keys, first);
    forall s | s in Elements(slices)
      ensures s.Share? && s.index in Held(keys, item.pinners)
        && s == Share(x.p2.secret, item.info.exec.n, item.info.exec.k, s.index)
    {
      ReadExactly(item, env, x, keys, s);
    }
    SharesBounded(Elements(slices), x.p2.secret, item.info.exec.n, item.info.exec.k, Held(keys, item.pinners));
  }

  lemma BreaksWith(item: KeyGenItem, env: Env, x: ExecutionResponse, keys: set<nat>)
    requires ResultOk(item, env, x) && x.p2.PublicOf? && x.p2.secret.Secret?
    requires 1 <= item.info.exec.k <= |Held(keys, item.pinners)|
    ensures Breaks(keys, x)
  {
    var order := OrderExists(Held(keys, item.pinners));
    DistinctCount(order);
    var slices := SharesAt(x.p2.secret, item.info.exec.n, item.info.exec.k, order);
    forall s | s in slices ensures s.Share? && ReadFrom(keys, x, s) {
      var j :| 0 <= j < |slices| && slices[j] == s;
      assert order[j] in Elements(order);
      ReadExactly(item, env, x, keys, s);
    }
    RecoveryExact(1, x.p2.secret.id, item.info.exec.n, item.info.exec.k, slices);
  }

  /** In every reachable world: the wallet key can be recovered from what the executor sends
      if and only if the private keys of k of the elected pinners are held. */
  lemma KeysOfThresholdNeeded(w: World, id: Id, p: Id, x: ExecutionResponse, keys: set<nat>)
    requires Reachable(w) && id in w.gens && ExecutionResponseMsg(p, x) in w.gens[id].net
    ensures x.p2.PublicOf?
    ensures var item := w.gens[id].at.item; Breaks(keys, x) <==> item.info.exec.k <= |Held(keys, item.pinners)|
  {
    GenIn(w, id);
    var item := w.gens[id].at.item;
    assert ExecutionResponseMsg(p, x) in Allowed(w.gens[id].at, w.env);
    if Breaks(keys, x) {
      var slices :| (forall s :: s in slices ==> ReadFrom(keys, x, s)) && ShamirRecovery(1, slices) == Some(x.p2.secret);
      BreaksOnlyWith(item, w.env, x, keys, slices);
    }
    if item.info.exec.k <= |Held(keys, item.pinners)| { BreaksWith(item, w.env, x, keys); }
  }

  // ---------------------------------------------------------------- signing

  /** The values in a message of signing. */
  function SignCarried(e: SignEvent): set<Data> {
    match e
    case SignCandidateMsg(_, r) => {r.account}
    case SliceReply(_, _, slice) => {slice}
    case BundleMsg(_, b) => {b.transaction, b.p1Signature} + Elements(b.slices)
    case CommitMsg(_, signed) => {signed}
    case _ => {}
  }

  function SignStoredData(item: SignItem): set<Data> {
    {item.account, item.p1Signature, item.transaction, item.nonce}
      + (set d | d in item.slices && item.slices[d].Some? :: item.slices[d].value.slice)
  }

  predicate RequestSealed(item: SignItem) {
    Sealed(item.account) && Sealed(item.p1Signature) && Sealed(item.transaction) && Sealed(item.nonce)
  }

  lemma SignatureSealed(exec: ExecInfo, keyType: string, secret: Data, transaction: Data)
    ensures Sealed(WitnessOf(exec, keyType, secret, transaction))
  {
    var s := Signature(keyType, secret, transaction);
    forall y | y in Shown({}, WitnessOf(exec, keyType, secret, transaction)) ensures !Sensitive(y) {
      if y != WitnessOf(exec, keyType, secret, transaction) {
        assert [s][0] == s && y in Shown({}, s);
      }
    }
  }

  lemma BundleBoxes(c: SignStored, env: Env, i: nat, x: Data)
    requires c in SignSound(env) && i < |c.bundles| && x in c.bundles[i].slices
    ensures exists d :: ForExecutor(c, env, d, x)
  {
    assert BundleOk(c, i);
    var m := c.item.info.exec.k + i;
    FirstFound(c, env, m);
    var slices := Collected(c.found[..m], c.item.slices);
    assert x in multiset(c.bundles[i].slices) && x in multiset(slices);
    var j :| 0 <= j < m && slices[j] == x;
    assert ForExecutor(c, env, c.found[j], x);
  }

  lemma BundleSealed(c: SignStored, env: Env, b: Bundle, x: Data)
    requires c in SignSound(env) && b in c.bundles && RequestSealed(c.item)
    requires x in {b.transaction, b.p1Signature} + Elements(b.slices)
    ensures Sealed(x)
  {
    var i :| 0 <= i < |c.bundles| && c.bundles[i] == b;
    assert BundleOk(c, i);
    if x in b.slices {
      BundleBoxes(c, env, i, x);
    }
  }

  lemma SignEventSealed(c: SignStored, env: Env, e: SignEvent, x: Data)
    requires c in SignSound(env) && e in SignAllowed(c, env) && RequestSealed(c.item) && x in SignCarried(e)
    ensures Sealed(x)
  {
    match e {
      case BundleMsg(_, b) => BundleSealed(c, env, b, x);
      case CommitMsg(_, _) => CommitSealed(c, x);
      case _ =>
    }
  }

  lemma CommitSealed(c: SignStored, x: Data)
    requires Signed(c, x)
    ensures Sealed(x)
  {
    var i :| 0 <= i < |c.bundles| && SignedFrom(c, c.bundles[i]) == Some(x);
    var slices := Opened(Some(RsaPrivate(c.item.executor.value.pub.id)), c.bundles[i].slices).value;
    SignatureSealed(c.item.info.exec, c.item.info.exec.taskType,
                    ShamirRecovery(c.item.info.exec.k, slices).value, c.item.transaction);
  }

  /** The same of signing: messages and the delegator's item show nothing of the wallet key
      or of its slices to whoever has no private key. */
  lemma NothingToReadInSigning(w: World, id: Id, x: Data)
    requires Reachable(w) && id in w.signs && RequestSealed(w.signs[id].task.at.item)
    requires x in SignStoredData(w.signs[id].task.at.item)
          || exists e :: e in w.signs[id].task.net && x in SignCarried(e)
    ensures Sealed(x)
  {
    SignIn(w, id);
    var t := w.signs[id].task;
    assert t.at in SignSound(w.env);
    if x in SignStoredData(t.at.item) {
      forall d | HasFound(t.at.item, d) ensures Sealed(t.at.item.slices[d].value.slice) {
        assert ForExecutor(t.at, w.env, d, t.at.item.slices[d].value.slice);
      }
    } else {
      var e :| e in t.net && x in SignCarried(e);
      SignEventSealed(t.at, w.env, e, x);
    }
  }
}
