/** The steps of a signing task that change the delegator's books: choosing the executor,
    attesting a pinner, receiving a slice. */
module SignBookSteps {
  import opened Types
  import opened SymbolicCrypto
  import opened KeyGenTypes
  import opened Environment
  import opened SignTypes
  import opened DelegatorSign
  import opened SignProtocol
  import opened SignInvariant
  import opened SignSteps
  import opened SignPeerSteps

  // ---------------------------------------------------------------- inviting

  lemma {:induction false} NothingCounted(out: seq<SignEvent>)
    requires forall g :: g in out ==> !g.SliceQuery? && !g.BundleMsg?
    ensures PairsAsked(out) == multiset{} && BundlesSent(out) == []
  {
    if out != [] {
      assert forall g :: g in out[..|out| - 1] ==> g in out;
      NothingCounted(out[..|out| - 1]);
    }
  }

  lemma InvitedAllowed(c: SignStored, env: Env, c': SignStored, delegates: seq<Id>)
    requires SignDelegatesReply in SignAllowed(c, env) && c'.stores == c.stores && c'.item.executor == c.item.executor
    ensures forall g :: g in SignProfiles(delegates) ==> g in SignAllowed(c', env) && g.SignProfileReply?
  {
  }

  lemma InvitingNet(net: multiset<SignEvent>, c: SignStored, env: Env, c': SignStored, i: SignInputs)
    requires SignNetOk(net, c, env) && SignDelegatesReply in net && Distinct(i.delegates)
    requires SameBooks(c, c') && c'.stores == c.stores
    ensures SignNetOk(SignNetAfter(net, SignDelegatesReply, SignProfiles(i.delegates)), c', env)
  {
    var e := SignDelegatesReply;
    assert e in SignAllowed(c, env);
    InvitedAllowed(c, env, c', i.delegates);
    assert forall f :: f !in net - multiset{e};
    SignNetStep(net, c, env, e, SignProfiles(i.delegates), c', env);
  }

  lemma InvitingSound(c: SignStored, env: Env, i: SignInputs)
    requires c in SignSound(env)
    ensures var r := SignHandle(c, env, SignDelegatesReply, i);
      && SameBooks(c, r.at) && r.at.stores == c.stores && r.at in SignSound(env) && Unmoved(c, r.at)
      && r.env == env && r.out == SignProfiles(i.delegates)
  {
    var r := SignHandle(c, env, SignDelegatesReply, i);
    NothingCounted(r.out);
    assert c.bundles + [] == c.bundles && c.asked + multiset{} == c.asked;
    SoundKept(c, env, r.at, env, [0]);
  }

  lemma SignDelegatesKept(net: multiset<SignEvent>, c: SignStored, env: Env, i: SignInputs)
    requires c in SignSound(env) && SignNetOk(net, c, env) && EnvOk(env) && SignDelegatesReply in net
    requires Distinct(i.delegates)
    ensures SignHandle(c, env, SignDelegatesReply, i) in SignKept(net, SignDelegatesReply, c, env)
  {
    var r := SignHandle(c, env, SignDelegatesReply, i);
    InvitingSound(c, env, i);
    InvitingNet(net, c, env, r.at, i);
    KeptByParts(net, c, env, SignDelegatesReply, r);
  }

  // ---------------------------------------------------------------- choosing

  lemma CountConcat<T>(a: seq<T>, b: seq<T>, x: T)
    ensures multiset(a + b)[x] == multiset(a)[x] + multiset(b)[x]
  {
  }

  /** One deployment more in the queue adds the peers that wait for it. */
  lemma DrainedMore(order: seq<nat>, candidates: map<nat, seq<Id>>, p: Id, d: nat)
    requires order != []
    ensures var e := order[|order| - 1];
      multiset(Drained(order, candidates))[(p, d)] == multiset(Drained(order[..|order| - 1], candidates))[(p, d)]
        + if d == e && e in candidates then multiset(candidates[e])[p] else 0
  {
    var e := order[|order| - 1];
    var peers := if e in candidates then candidates[e] else [];
    PairsCount(peers, e, p, d);
    CountConcat(Drained(order[..|order| - 1], candidates), PairsWith(peers, e), (p, d));
  }

  lemma {:induction false} DrainedCounts(order: seq<nat>, candidates: map<nat, seq<Id>>, p: Id, d: nat)
    requires Distinct(order)
    ensures multiset(Drained(order, candidates))[(p, d)]
         == if d in order && d in candidates then multiset(candidates[d])[p] else 0
  {
    if order != [] {
      var last := |order| - 1;
      DrainedCounts(order[..last], candidates, p, d);
      DrainedMore(order, candidates, p, d);
      assert order == order[..last] + [order[last]] && order[last] !in order[..last];
    }
  }

  lemma {:induction false} PairsCount(peers: seq<Id>, e: nat, p: Id, d: nat)
    ensures multiset(PairsWith(peers, e))[(p, d)] == if d == e then multiset(peers)[p] else 0
  {
    if peers != [] {
      var last := |peers| - 1;
      PairsCount(peers[..last], e, p, d);
      assert peers == peers[..last] + [peers[last]];
      assert PairsWith(peers, e) == PairsWith(peers[..last], e) + [(peers[last], e)];
    }
  }

  lemma AskedLast(out: seq<SignEvent>, e: SignEvent)
    requires e.SliceQuery?
    ensures PairsAsked(out + [e]) == PairsAsked(out) + multiset{(e.peer, e.deployment)}
    ensures BundlesSent(out + [e]) == BundlesSent(out)
  {
    assert (out + [e])[..|out + [e]| - 1] == out;
  }

  lemma {:induction false} QueriesCounted(pairs: seq<(Id, nat)>, pub: RsaPublic)
    ensures PairsAsked(Queries(pairs, pub)) == multiset(pairs) && BundlesSent(Queries(pairs, pub)) == []
  {
    if pairs != [] {
      var last := |pairs| - 1;
      QueriesCounted(pairs[..last], pub);
      assert pairs == pairs[..last] + [pairs[last]];
      assert Queries(pairs, pub) == Queries(pairs[..last], pub) + [SliceQuery(pairs[last].0, pairs[last].1, pub)];
      AskedLast(Queries(pairs[..last], pub), SliceQuery(pairs[last].0, pairs[last].1, pub));
    }
  }

  lemma OneBundle(g: SignEvent)
    requires g.BundleMsg?
    ensures PairsAsked([g]) == multiset{} && BundlesSent([g]) == [g.bundle]
  {
    assert [g][..0] == [];
  }

  lemma OneQuery(g: SignEvent)
    requires g.SliceQuery?
    ensures PairsAsked([g]) == multiset{(g.peer, g.deployment)} && BundlesSent([g]) == []
  {
    assert [g][..0] == [];
  }

  /** Before there is an executor no slice can have come. */
  lemma NothingFoundYet(c: SignStored, env: Env)
    requires c in SignSound(env) && c.item.executor == None
    ensures FoundSet(c.item) == {} && c.found == [] && c.bundles == []
    ensures (forall d :: !HasFound(c.item, d)) && (forall w :: w !in c.commits)
  {
    assert FoundSet(c.item) == {};
    if c.found != [] { HeadIn(c.found); }
  }

  lemma {:induction false} NothingCollected(order: seq<nat>, slices: map<nat, Option<KeySliceInfo>>)
    requires forall d :: d in slices ==> slices[d] == None
    ensures Collected(order, slices) == []
  {
    if order != [] { NothingCollected(order[..|order| - 1], slices); }
  }

  /** With a threshold the whole queue is asked, each as often as it waited. */
  lemma ChosenAsks(c: SignStored, env: Env, who: NodeInfo, i: SignInputs)
    requires c in SignSound(env) && c.item.executor == None && 1 <= c.item.info.exec.k
    requires IsOrderOf(i.queue, c.item.candidates.Keys)
    ensures var o := OnExecutorAttested(c.item, who, i.queue, i.order);
      var c' := AtSigner(c, env, o).at;
      && o.ok && o.item == c.item.(executor := Some(who), candidates := map[])
      && o.out == Queries(Drained(i.queue, c.item.candidates), who.pub)
      && c'.bundles == [] && (forall p, d :: c'.asked[(p, d)] == Queued(c.item, p, d))
  {
    NothingFoundYet(c, env);
    var o := OnExecutorAttested(c.item, who, i.queue, i.order);
    assert FoundSet(o.item) == {};
    QueriesCounted(Drained(i.queue, c.item.candidates), who.pub);
    forall p, d ensures multiset(Drained(i.queue, c.item.candidates))[(p, d)] == Queued(c.item, p, d) {
      DrainedCounts(i.queue, c.item.candidates, p, d);
      assert d in i.queue <==> d in Elements(i.queue);
    }
  }

  /** Without one, an empty bundle goes out instead and the queue is forgotten. */
  lemma ChosenForgets(c: SignStored, env: Env, who: NodeInfo, i: SignInputs)
    requires c in SignSound(env) && c.item.executor == None && c.item.info.exec.k == 0
    ensures var o := OnExecutorAttested(c.item, who, i.queue, i.order);
      var c' := AtSigner(c, env, o).at;
      && o.ok && o.item == c.item.(executor := Some(who), candidates := map[], state := SignSentToExecutor)
      && o.out == [BundleMsg(who.peer, BundleOf(o.item, i.order))] && c'.asked == multiset{}
      && c'.bundles == [BundleOf(o.item, i.order)] && c'.bundles[0].slices == []
  {
    NothingFoundYet(c, env);
    var o := OnExecutorAttested(c.item, who, i.queue, i.order);
    assert ReadyToSend(c.item.(executor := Some(who), candidates := map[]));
    OneBundle(BundleMsg(who.peer, BundleOf(c.item, i.order)));
    forall d | d in c.item.slices ensures c.item.slices[d] == None {
      assert !HasFound(c.item, d);
    }
    NothingCollected(i.order, c.item.slices);
  }

  /** The books right after the choice. */
  lemma ChosenSound(c: SignStored, env: Env, c': SignStored, who: NodeInfo)
    requires c in SignSound(env) && c.item.executor == None && Offered(c, who.peer, who.pub)
    requires c'.item == c.item.(executor := Some(who), candidates := map[], state := c'.item.state)
    requires c'.stores == c.stores && c'.found == c.found && c'.commits == c.commits && c'.accepted == c.accepted
    requires if 1 <= c.item.info.exec.k then c'.bundles == [] && forall p, d :: c'.asked[(p, d)] == Queued(c.item, p, d)
             else |c'.bundles| == 1 && BundleOk(c', 0)
    ensures c' in SignSound(env) && Later(c, env, c', env, who.peer)
  {
    NothingFoundYet(c, env);
    assert forall d :: !HasFound(c'.item, d);
    assert FoundSet(c'.item) == {};
  }

  lemma ChosenBundle(c: SignStored, env: Env, c': SignStored, order: seq<nat>)
    requires c in SignSound(env) && c.item.executor == None && c.item.info.exec.k == 0
    requires c'.item == c.item.(executor := c'.item.executor, candidates := map[], state := c'.item.state)
    requires c'.found == c.found && c'.bundles == [BundleOf(c'.item, order)] && c'.bundles[0].slices == []
    ensures BundleOk(c', 0)
  {
    NothingFoundYet(c, env);
    assert Collected(c'.found[..0], c'.item.slices) == [];
  }

  lemma ChosenAllowed(c: SignStored, env: Env, g: SignEvent)
    requires c.item.executor.Some?
    requires (g.SliceQuery? && g.pub == c.item.executor.value.pub)
          || (g.BundleMsg? && g.peer == c.item.executor.value.peer && g.bundle in c.bundles)
    ensures g in SignAllowed(c, env) && Invitee(g).None? && !g.SignDelegatesReply?
  {
  }

  lemma ChosenOutcome(c: SignStored, env: Env, who: NodeInfo, i: SignInputs)
    requires c in SignSound(env) && c.item.executor == None && Offered(c, who.peer, who.pub)
    requires IsOrderOf(i.queue, c.item.candidates.Keys)
    ensures var r := AtSigner(c, env, OnExecutorAttested(c.item, who, i.queue, i.order));
      && r.at in SignSound(env) && Later(c, env, r.at, env, who.peer)
      && (forall g :: g in r.out ==> g in SignAllowed(r.at, env) && Invitee(g).None? && !g.SignDelegatesReply?)
  {
    NothingFoundYet(c, env);
    var r := AtSigner(c, env, OnExecutorAttested(c.item, who, i.queue, i.order));
    if 1 <= c.item.info.exec.k {
      ChosenAsks(c, env, who, i);
    } else {
      ChosenForgets(c, env, who, i);
      ChosenBundle(c, env, r.at, i.order);
    }
    ChosenSound(c, env, r.at, who);
    forall g | g in r.out ensures g in SignAllowed(r.at, env) && Invitee(g).None? && !g.SignDelegatesReply? {
      ChosenAllowed(r.at, env, g);
    }
  }

  lemma ChosenKept(net: multiset<SignEvent>, c: SignStored, env: Env, e: SignEvent, i: SignInputs)
    requires c in SignSound(env) && SignNetOk(net, c, env) && EnvOk(env) && e in net && e.ExecutorAttested?
    requires c.item.executor == None && IsOrderOf(i.queue, c.item.candidates.Keys)
    ensures AtSigner(c, env, OnExecutorAttested(c.item, NodeInfo(e.peer, e.pub), i.queue, i.order)) in SignKept(net, e, c, env)
  {
    assert e in SignAllowed(c, env);
    var who := NodeInfo(e.peer, e.pub);
    var r := AtSigner(c, env, OnExecutorAttested(c.item, who, i.queue, i.order));
    ChosenOutcome(c, env, who, i);
    NothingFoundYet(c, env);
    ServeStep(net, c, env, e, r.out, r.at, env, e.peer);
    assert Unmoved(c, r.at);
  }

  /** A second executor is ignored. */
  lemma SecondKept(net: multiset<SignEvent>, c: SignStored, env: Env, e: SignEvent, i: SignInputs)
    requires c in SignSound(env) && SignNetOk(net, c, env) && EnvOk(env) && e in net && e.ExecutorAttested?
    requires c.item.executor.Some?
    ensures SignHandle(c, env, e, i) in SignKept(net, e, c, env)
  {
    var r := SignHandle(c, env, e, i);
    assert PairsAsked(r.out) == multiset{} && BundlesSent(r.out) == [];
    assert c.bundles + [] == c.bundles && c.asked + multiset{} == c.asked;
    QuietStep(net, c, env, e, r, e.peer);
  }

  lemma AttestedKept(net: multiset<SignEvent>, c: SignStored, env: Env, e: SignEvent, i: SignInputs)
    requires c in SignSound(env) && SignNetOk(net, c, env) && EnvOk(env) && e in net && e.ExecutorAttested?
    requires IsOrderOf(i.queue, c.item.candidates.Keys)
    ensures SignHandle(c, env, e, i) in SignKept(net, e, c, env)
  {
    assert e in SignAllowed(c, env);
    if c.item.executor.Some? { SecondKept(net, c, env, e, i); } else { ChosenKept(net, c, env, e, i); }
  }

  // ---------------------------------------------------------------- attesting pinners

  lemma QueuedMore(item: SignItem, p: Id, d: nat, q: Id, e: nat)
    requires d in item.candidates
    ensures Queued(item.(candidates := item.candidates[d := item.candidates[d] + [p]]), q, e)
         == Queued(item, q, e) + if (q, e) == (p, d) then 1 else 0
  {
    assert multiset(item.candidates[d] + [p]) == multiset(item.candidates[d]) + multiset{p};
  }

  /** Attestation only adds: to the queue, or to those that are asked. */
  predicate Booked(c: SignStored, c': SignStored) {
    && c'.item == c.item.(candidates := c'.item.candidates)
    && c'.stores == c.stores && c'.found == c.found && c'.bundles == c.bundles && c'.commits == c.commits
  }

  lemma BookedSound(c: SignStored, env: Env, c': SignStored)
    requires c in SignSound(env) && Booked(c, c') && QueueOk(c')
    ensures c' in SignSound(env) && forall p :: Later(c, env, c', env, p)
  {
    forall d | HasFound(c.item, d) ensures ForExecutor(c', env, d, c.item.slices[d].value.slice) {
      assert ForExecutor(c, env, d, c.item.slices[d].value.slice);
    }
    forall i: nat | i < |c.bundles| ensures BundleOk(c', i) {
      assert BundleOk(c, i);
    }
    forall w | w in c.commits ensures Signed(c', w) {
      SignedStable(c, env, c', env, [0], w);
    }
  }

  lemma AskedBooks(c: SignStored, env: Env, p: Id, d: nat)
    requires c in SignSound(env) && !HasFound(c.item, d) && c.item.executor.Some?
    ensures var r := Attest(c, env, p, d);
      Booked(c, r.at) && QueueOk(r.at) && r.out == [SliceQuery(p, d, c.item.executor.value.pub)]
  {
    var r := Attest(c, env, p, d);
    OneQuery(SliceQuery(p, d, c.item.executor.value.pub));
    forall q: Id, e: nat ensures Queued(r.at.item, q, e) == Queued(c.item, q, e) { }
  }

  lemma QueuedBooks(c: SignStored, env: Env, p: Id, d: nat)
    requires c in SignSound(env) && !HasFound(c.item, d) && c.item.executor.None?
    ensures var r := Attest(c, env, p, d); Booked(c, r.at) && QueueOk(r.at) && r.out == []
  {
    var r := Attest(c, env, p, d);
    if d in c.item.candidates {
      forall q: Id, e: nat ensures Queued(r.at.item, q, e) == Queued(c.item, q, e) + if (q, e) == (p, d) then 1 else 0 {
        QueuedMore(c.item, p, d, q, e);
      }
    }
  }

  lemma AttestBooks(c: SignStored, env: Env, p: Id, d: nat)
    requires c in SignSound(env)
    ensures var r := Attest(c, env, p, d);
      && Booked(c, r.at) && QueueOk(r.at)
      && (r.out == [] || (c.item.executor.Some? && r.out == [SliceQuery(p, d, c.item.executor.value.pub)]))
  {
    if !HasFound(c.item, d) {
      if c.item.executor.Some? { AskedBooks(c, env, p, d); } else { QueuedBooks(c, env, p, d); }
    }
  }

  /** Only an executor's task has queries under way, and it has done with inviting. */
  lemma BookedNet(net: multiset<SignEvent>, c: SignStored, env: Env, c': SignStored, out: seq<SignEvent>)
    requires SignNetOk(net, c, env) && Booked(c, c')
    requires out == [] || (c.item.executor.Some? && |out| == 1 && out[0].SliceQuery? && out[0] in SignAllowed(c', env))
    ensures SignNetOk(net + multiset(out), c', env)
  {
    forall f | f in net ensures f in SignAllowed(c', env) && (f.SignDelegatesReply? ==> c.item.executor == None) {
      assert f in SignAllowed(c, env);
      BookedAllowed(c, env, c', f);
    }
    SignNetKept(net, net, out);
  }

  lemma AttestKept(net: multiset<SignEvent>, c: SignStored, env: Env, p: Id, d: nat)
    requires c in SignSound(env) && SignNetOk(net, c, env)
    ensures var r := Attest(c, env, p, d);
      && r.at in SignSound(env) && r.env == env && SignNetOk(net + multiset(r.out), r.at, env)
      && Unmoved(c, r.at)
  {
    var r := Attest(c, env, p, d);
    AttestBooks(c, env, p, d);
    BookedSound(c, env, r.at);
    if r.out != [] { ChosenAllowed(r.at, env, r.out[0]); }
    BookedNet(net, c, env, r.at, r.out);
  }

  lemma BookedAllowed(c: SignStored, env: Env, c': SignStored, f: SignEvent)
    requires f in SignAllowed(c, env) && Booked(c, c')
    ensures f in SignAllowed(c', env)
  {
    if !f.SignDelegatesReply? {
      SignEventStable(c, env, c', env, [0], f);
    }
  }

  // ---------------------------------------------------------------- receiving slices

  lemma {:induction false} CollectedElsewhere(order: seq<nat>, slices: map<nat, Option<KeySliceInfo>>, d: nat, v: Option<KeySliceInfo>)
    requires d !in order
    ensures Collected(order, slices[d := v]) == Collected(order, slices)
  {
    if order != [] {
      assert order[|order| - 1] in order;
      forall x | x in order[..|order| - 1] ensures x in order { }
      CollectedElsewhere(order[..|order| - 1], slices, d, v);
    }
  }

  lemma {:induction false} CollectedConcat(a: seq<nat>, b: seq<nat>, slices: map<nat, Option<KeySliceInfo>>)
    ensures Collected(a + b, slices) == Collected(a, slices) + Collected(b, slices)
  {
    if b == [] {
      assert a + b == a;
    } else {
      var last := |b| - 1;
      assert (a + b)[..|a + b| - 1] == a + b[..last];
      CollectedConcat(a, b[..last], slices);
    }
  }

  /** One deployment taken out of a list takes its slice out of what is collected. */
  lemma CollectedWithout(found: seq<nat>, j: nat, slices: map<nat, Option<KeySliceInfo>>)
    requires j < |found| && found[j] in slices && slices[found[j]].Some?
    ensures multiset(Collected(found, slices))
         == multiset(Collected(found[..j] + found[j + 1..], slices)) + multiset{slices[found[j]].value.slice}
  {
    var a, d, b := found[..j], found[j], found[j + 1..];
    assert found == (a + [d]) + b && (a + [d])[..j] == a;
    CollectedConcat(a + [d], b, slices);
    CollectedConcat(a, b, slices);
    assert Collected(a + [d], slices) == Collected(a, slices) + [slices[d].value.slice];
  }

  /** Whichever way the map is walked, the same slices are collected. */
  lemma {:induction false} CollectedAnyOrder(order: seq<nat>, found: seq<nat>, slices: map<nat, Option<KeySliceInfo>>)
    requires Distinct(order) && Distinct(found)
    requires forall d :: d in found <==> d in order && d in slices && slices[d].Some?
    ensures multiset(Collected(order, slices)) == multiset(Collected(found, slices))
    decreases |order|
  {
    if order == [] {
      if found != [] { HeadIn(found); }
    } else {
      var init, d := order[..|order| - 1], order[|order| - 1];
      assert order == init + [d] && d !in init;
      if d in found {
        var j :| 0 <= j < |found| && found[j] == d;
        WithoutOne(found, j);
        assert forall x :: x in order <==> x in init || x == d;
        CollectedAnyOrder(init, found[..j] + found[j + 1..], slices);
        CollectedWithout(found, j, slices);
      } else {
        CollectedAnyOrder(init, found, slices);
      }
    }
  }

  lemma WithoutOne(s: seq<nat>, j: nat)
    requires j < |s| && Distinct(s)
    ensures Distinct(s[..j] + s[j + 1..])
    ensures forall x :: x in s[..j] + s[j + 1..] <==> x in s && x != s[j]
  {
    var r := s[..j] + s[j + 1..];
    forall i, k | 0 <= i < k < |r| ensures r[i] != r[k] {
      assert r[i] == s[if i < j then i else i + 1] && r[k] == s[if k < j then k else k + 1];
    }
    forall x | x in s && x != s[j] ensures x in r {
      var i :| 0 <= i < |s| && s[i] == x;
      assert r[if i < j then i else i - 1] == x;
    }
  }

  lemma FoundCount(item: SignItem, found: seq<nat>)
    requires Distinct(found) && forall d :: d in found <==> HasFound(item, d)
    ensures |FoundSet(item)| == |found|
  {
    DistinctCount(found);
    assert FoundSet(item) == Elements(found);
  }

  /** A new slice: the item afterwards, whether or not a bundle goes out. */
  predicate Received(c: SignStored, c': SignStored, p: Id, d: nat, slice: Data) {
    && c'.item == c.item.(slices := c.item.slices[d := Some(KeySliceInfo(p, slice))], state := c'.item.state)
    && c'.found == c.found + [d] && c'.stores == c.stores && c'.commits == c.commits
    && c'.accepted == c.accepted && c'.asked == c.asked
  }

  lemma ReceivedSlices(c: SignStored, env: Env, c': SignStored, p: Id, d: nat, slice: Data)
    requires SlicesOk(c, env) && Received(c, c', p, d, slice) && ForExecutor(c, env, d, slice)
    requires d in c.item.slices && !HasFound(c.item, d)
    ensures SlicesOk(c', env) && |FoundSet(c'.item)| == |c.found| + 1
  {
    forall e ensures HasFound(c'.item, e) <==> HasFound(c.item, e) || e == d { }
    forall e ensures e in c'.found <==> e in c.found || e == d { }
    forall e | HasFound(c'.item, e) ensures ForExecutor(c', env, e, c'.item.slices[e].value.slice) {
      if e != d { assert ForExecutor(c, env, e, c.item.slices[e].value.slice); }
    }
    FoundCount(c'.item, c'.found);
  }

  lemma ReceivedBundle(c: SignStored, c': SignStored, p: Id, d: nat, slice: Data, i: nat)
    requires Received(c, c', p, d, slice) && c.bundles <= c'.bundles && i < |c.bundles| && BundleOk(c, i)
    requires d !in c.found
    ensures BundleOk(c', i)
  {
    var m := c.item.info.exec.k + i;
    assert c'.found[..m] == c.found[..m];
    forall x | x in c.found[..m] ensures x in c.found { }
    CollectedElsewhere(c.found[..m], c.item.slices, d, Some(KeySliceInfo(p, slice)));
  }

  lemma ReceivedNewBundle(c: SignStored, env: Env, c': SignStored, order: seq<nat>)
    requires SlicesOk(c', env) && IsOrderOf(order, c'.item.slices.Keys)
    requires c'.bundles == c.bundles + [BundleOf(c'.item, order)]
    requires c'.item.info.exec.k + |c.bundles| == |c'.found|
    ensures BundleOk(c', |c.bundles|)
  {
    assert c'.found[..|c'.found|] == c'.found;
    forall d ensures d in c'.found <==> d in order && d in c'.item.slices && c'.item.slices[d].Some? {
      assert d in order <==> d in Elements(order);
    }
    CollectedAnyOrder(order, c'.found, c'.item.slices);
  }

  lemma BundleCount(c: SignStored, env: Env, c': SignStored, order: seq<nat>)
    requires c in SignSound(env) && c.item.executor.Some? && c'.item.executor == c.item.executor
    requires c'.item.info == c.item.info && |c'.found| == |c.found| + 1
    requires c'.bundles == if c.item.info.exec.k <= |c.found| + 1 then c.bundles + [BundleOf(c'.item, order)] else c.bundles
    ensures |c'.bundles| == Sends(|c'.found|, c.item.info.exec.k)
  {
  }

  lemma ReceivedBundles(c: SignStored, env: Env, c': SignStored, p: Id, d: nat, slice: Data, order: seq<nat>)
    requires c in SignSound(env) && ForExecutor(c, env, d, slice) && d in c.item.slices && !HasFound(c.item, d)
    requires IsOrderOf(order, c.item.slices.Keys) && Received(c, c', p, d, slice)
    requires c'.bundles == if c.item.info.exec.k <= |c.found| + 1 then c.bundles + [BundleOf(c'.item, order)] else c.bundles
    ensures BundlesOk(c')
  {
    BundleCount(c, env, c', order);
    if |c'.bundles| != |c.bundles| { LastBundle(c, env, c', p, d, slice, order); }
    forall i: nat | i < |c.bundles| ensures i < |c'.bundles| && BundleOk(c', i) {
      OldBundle(c, env, c', p, d, slice, order, i);
    }
  }

  lemma OldBundle(c: SignStored, env: Env, c': SignStored, p: Id, d: nat, slice: Data, order: seq<nat>, i: nat)
    requires c in SignSound(env) && ForExecutor(c, env, d, slice) && d in c.item.slices && !HasFound(c.item, d)
    requires IsOrderOf(order, c.item.slices.Keys) && Received(c, c', p, d, slice)
    requires c'.bundles == if c.item.info.exec.k <= |c.found| + 1 then c.bundles + [BundleOf(c'.item, order)] else c.bundles
    requires i < |c.bundles|
    ensures i < |c'.bundles| && BundleOk(c', i)
  {
    assert BundleOk(c, i);
    ReceivedSlices(c, env, c', p, d, slice);
    ReceivedBundle(c, c', p, d, slice, i);
  }

  lemma LastBundle(c: SignStored, env: Env, c': SignStored, p: Id, d: nat, slice: Data, order: seq<nat>)
    requires c in SignSound(env) && ForExecutor(c, env, d, slice) && d in c.item.slices && !HasFound(c.item, d)
    requires IsOrderOf(order, c.item.slices.Keys) && Received(c, c', p, d, slice)
    requires c.item.info.exec.k <= |c.found| + 1 && c'.bundles == c.bundles + [BundleOf(c'.item, order)]
    ensures BundleOk(c', |c.bundles|)
  {
    ReceivedSlices(c, env, c', p, d, slice);
    assert c'.item.slices.Keys == c.item.slices.Keys;
    ReceivedNewBundle(c, env, c', order);
  }

  lemma ReceivedSound(c: SignStored, env: Env, c': SignStored, p: Id, d: nat, slice: Data, order: seq<nat>)
    requires c in SignSound(env) && ForExecutor(c, env, d, slice) && d in c.item.slices && !HasFound(c.item, d)
    requires IsOrderOf(order, c.item.slices.Keys) && Received(c, c', p, d, slice)
    requires c'.bundles == if c.item.info.exec.k <= |c.found| + 1 then c.bundles + [BundleOf(c'.item, order)] else c.bundles
    ensures c' in SignSound(env) && forall q :: Later(c, env, c', env, q)
  {
    ReceivedSlices(c, env, c', p, d, slice);
    ReceivedBundles(c, env, c', p, d, slice, order);
    forall q, e ensures Queued(c'.item, q, e) == Queued(c.item, q, e) { }
    forall w | w in c.commits ensures Signed(c', w) {
      SignedStable(c, env, c', env, p, w);
    }
  }

  lemma ReceivedOutcome(c: SignStored, env: Env, p: Id, d: nat, slice: Data, order: seq<nat>)
    requires c in SignSound(env) && ForExecutor(c, env, d, slice) && d in c.item.slices && !HasFound(c.item, d)
    ensures var c0 := c.(found := c.found + [d]);
      var o := OnSliceReply(c.item, p, d, slice, order);
      var r := AtSigner(c0, env, o);
      && o.ok && Received(c, r.at, p, d, slice)
      && r.at.bundles == (if c.item.info.exec.k <= |c.found| + 1 then c.bundles + [BundleOf(r.at.item, order)] else c.bundles)
      && (forall g :: g in r.out ==>
            g.BundleMsg? && g.peer == c.item.executor.value.peer && g.bundle in r.at.bundles)
  {
    var item' := c.item.(slices := c.item.slices[d := Some(KeySliceInfo(p, slice))]);
    var c' := c.(item := item', found := c.found + [d]);
    ReceivedSlices(c, env, c', p, d, slice);
    var o := OnSliceReply(c.item, p, d, slice, order);
    assert c.bundles + [] == c.bundles && c.asked + multiset{} == c.asked;
    if ReadyToSend(item') {
      OneBundle(o.out[0]);
    }
  }

  lemma ReceivedKept(net: multiset<SignEvent>, c: SignStored, env: Env, e: SignEvent, i: SignInputs)
    requires c in SignSound(env) && SignNetOk(net, c, env) && EnvOk(env) && e in net && e.SliceReply?
    requires e.deployment in c.item.slices && !HasFound(c.item, e.deployment)
    requires IsOrderOf(i.order, c.item.slices.Keys)
    ensures SignHandle(c, env, e, i) in SignKept(net, e, c, env)
  {
    assert e in SignAllowed(c, env);
    var r := SignHandle(c, env, e, i);
    ReceivedOutcome(c, env, e.peer, e.deployment, e.slice, i.order);
    ReceivedSound(c, env, r.at, e.peer, e.deployment, e.slice, i.order);
    forall g | g in r.out ensures g in SignAllowed(r.at, env) && Invitee(g).None? && !g.SignDelegatesReply? {
      ChosenAllowed(r.at, env, g);
    }
    ServeStep(net, c, env, e, r.out, r.at, env, e.peer);
    assert Unmoved(c, r.at);
  }

  /** A second slice of a deployment, or one of an unknown deployment, changes nothing. */
  lemma RefusedKept(net: multiset<SignEvent>, c: SignStored, env: Env, e: SignEvent, i: SignInputs)
    requires c in SignSound(env) && SignNetOk(net, c, env) && EnvOk(env) && e in net && e.SliceReply?
    requires e.deployment !in c.item.slices || HasFound(c.item, e.deployment)
    ensures SignHandle(c, env, e, i) in SignKept(net, e, c, env)
  {
    var r := SignHandle(c, env, e, i);
    assert PairsAsked(r.out) == multiset{} && BundlesSent(r.out) == [];
    assert c.bundles + [] == c.bundles && c.asked + multiset{} == c.asked;
    QuietStep(net, c, env, e, r, e.peer);
  }
}
