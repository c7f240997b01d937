/** One signing task as a transition system. Besides what is stored it remembers, for the
    accounting, in which order slices arrived, which bundles were sent, which attested
    pinners were accepted, which were asked, and what was committed. */
module SignProtocol {
  import opened Types
  import opened SymbolicCrypto
  import opened KeyGenTypes
  import opened Environment
  import opened SignTypes
  import opened DelegatorSign
  import opened PeerSign

  datatype SignStored = SignStored(
    item: SignItem, stores: map<Id, SignStore>,
    found: seq<nat>, bundles: seq<Bundle>,
    accepted: multiset<(Id, nat)>, asked: multiset<(Id, nat)>, commits: seq<Data>)

  datatype SignTask = SignTask(net: multiset<SignEvent>, at: SignStored)

  /** The delegate list, the orders in which the slice map and the queue are walked, and
      whether a pinner that is asked holds a deployment that it did not register itself. */
  datatype SignInputs = SignInputs(delegates: seq<Id>, order: seq<nat>, queue: seq<nat>, elsewhere: bool := false)

  /** A pinner may be attested at any moment, any number of times, for any deployment. */
  datatype SignAction =
    | SignDeliver(event: SignEvent, inputs: SignInputs)
    | SignLose(event: SignEvent)
    | PinnerAttested(peer: Id, deployment: nat)

  function SignStoreAt(c: SignStored, p: Id): SignStore {
    if p in c.stores then c.stores[p] else EMPTY_SIGN_STORE
  }

  datatype SignEffect = SignEffect(at: SignStored, env: Env, out: seq<SignEvent>)

  function PairsAsked(out: seq<SignEvent>): (r: multiset<(Id, nat)>) {
    if out == [] then multiset{}
    else
      var e := out[|out| - 1];
      PairsAsked(out[..|out| - 1]) + (if e.SliceQuery? then multiset{(e.peer, e.deployment)} else multiset{})
  }

  function BundlesSent(out: seq<SignEvent>): seq<Bundle> {
    if out == [] then []
    else
      var e := out[|out| - 1];
      BundlesSent(out[..|out| - 1]) + (if e.BundleMsg? then [e.bundle] else [])
  }

  /** What the delegator saved and sent; the histories follow from that. */
  function AtSigner(c: SignStored, env: Env, o: SignOutcome): SignEffect {
    SignEffect(c.(item := o.item, asked := c.asked + PairsAsked(o.out), bundles := c.bundles + BundlesSent(o.out)),
               env, o.out)
  }

  function AtSignPeer(c: SignStored, p: Id, s: SignStep): SignEffect {
    SignEffect(c.(stores := c.stores[p := s.store]), s.env, s.out)
  }

  function SignHandle(c: SignStored, env: Env, e: SignEvent, i: SignInputs): SignEffect {
    match e
    case SignDelegatesReply => AtSigner(c, env, OnSignDelegates(c.item, i.delegates))
    case SignProfileReply(p) => SignEffect(c, env, [SignCandidateMsg(p, SignRequestFor(c.item))])
    case SignCandidateMsg(p, r) => AtSignPeer(c, p, OnSignCandidate(SignStoreAt(c, p), env, p, r))
    case SignRequestMsg(p, pub) => AtSigner(c, env, OnSignRequest(c.item, p, pub))
    case ExecutorAttested(p, pub) => AtSigner(c, env, OnExecutorAttested(c.item, NodeInfo(p, pub), i.queue, i.order))
    case SliceQuery(p, d, pub) => AtSignPeer(c, p, OnSliceQuery(SignStoreAt(c, p), env, p, d, pub, i.elsewhere))
    case SliceReply(p, d, slice) =>
      var c' := if HasFound(c.item, d) || d !in c.item.slices then c else c.(found := c.found + [d]);
      AtSigner(c', env, OnSliceReply(c.item, p, d, slice, i.order))
    case BundleMsg(p, b) => AtSignPeer(c, p, OnBundle(SignStoreAt(c, p), env, p, b))
    case CommitMsg(p, w) => AtSigner(c.(commits := c.commits + [w]), env, OnCommit(c.item))
  }

  /** A success that is neither ignored nor refused is accepted. */
  function Attest(c: SignStored, env: Env, p: Id, d: nat): SignEffect {
    var o := OnPinnerAttested(c.item, p, d);
    var c' := if o.ok && !HasFound(c.item, d) then c.(accepted := c.accepted + multiset{(p, d)}) else c;
    AtSigner(c', env, o)
  }

  function SignNetAfter(net: multiset<SignEvent>, e: SignEvent, out: seq<SignEvent>): multiset<SignEvent> {
    net - multiset{e} + multiset(out)
  }

  ghost predicate SignEnabled(t: SignTask, a: SignAction) {
    match a
    case SignDeliver(e, i) =>
      && e in t.net
      && (e.SignDelegatesReply? ==> Distinct(i.delegates))
      && IsOrderOf(i.order, t.at.item.slices.Keys) && IsOrderOf(i.queue, t.at.item.candidates.Keys)
    case SignLose(e) => e in t.net
    case PinnerAttested(_, _) => true
  }

  ghost function SignNext(t: SignTask, env: Env, a: SignAction): (SignTask, Env)
    requires SignEnabled(t, a)
  {
    match a
    case SignDeliver(e, i) =>
      var r := SignHandle(t.at, env, e, i);
      (SignTask(SignNetAfter(t.net, e, r.out), r.at), r.env)
    case SignLose(e) => (t.(net := SignNetAfter(t.net, e, [])), env)
    case PinnerAttested(p, d) =>
      var r := Attest(t.at, env, p, d);
      (SignTask(t.net + multiset(r.out), r.at), r.env)
  }

  function SignBegin(item: SignItem): SignTask {
    SignTask(multiset{SignDelegatesReply}, SignStored(item, map[], [], [], multiset{}, multiset{}, []))
  }
}
