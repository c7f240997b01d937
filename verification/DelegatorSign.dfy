/** The delegator's signing handlers, as functions on the stored item. Where a hash map is
    walked, the order it happens to have is an argument. */
module DelegatorSign {
  import opened Types
  import opened SymbolicCrypto
  import opened KeyGenTypes
  import opened SignTypes

  /** The parameters that stand in for those of the account. */
  const FIXED_EXEC := ExecInfo(2, 1, "bitcoin_mainnet")

  function SliceTable(ids: seq<nat>): (m: map<nat, Option<KeySliceInfo>>)
    ensures m.Keys == set d | d in ids
    ensures forall d :: d in m ==> m[d] == None
  {
    map d | d in ids :: None
  }

  function CandidateTable(ids: seq<nat>): (m: map<nat, seq<Id>>)
    ensures m.Keys == set d | d in ids
    ensures forall d :: d in m ==> m[d] == []
  {
    map d | d in ids :: []
  }

  /** The item that the reply to `get_deployment_ids` leaves, with the delegate list still
      to come. */
  function SignStarted(e: SignEventData, nonce: Data, exec: ExecInfo, ids: seq<nat>): SignItem {
    SignItem(TaskInfo(e.taskId, exec), SignInitialized, None, e.account, e.p1Signature, e.transaction, nonce,
             SliceTable(ids), CandidateTable(ids))
  }

  function SignProfiles(delegates: seq<Id>): seq<SignEvent> {
    seq(|delegates|, i requires 0 <= i < |delegates| => SignProfileReply(delegates[i]))
  }

  /** The reply to `get_delegates`: look every delegate up; start looking for pinners. */
  function OnSignDelegates(item: SignItem, delegates: seq<Id>): SignOutcome {
    SignOutcome(item.(state := FindingDeployments), SignProfiles(delegates), true)
  }

  function SignRequestFor(item: SignItem): SignCandidate {
    SignCandidate(item.info.taskId, item.account, item.info.exec.n, item.info.exec.k, item.info.exec.taskType)
  }

  predicate HasFound(item: SignItem, d: nat) {
    d in item.slices && item.slices[d].Some?
  }

  function FoundSet(item: SignItem): set<nat> {
    set d | d in item.slices && item.slices[d].Some?
  }

  /** `ready_send_to_executor`. */
  predicate ReadyToSend(item: SignItem) {
    item.info.exec.k <= |FoundSet(item)|
  }

  /** `get_encrypted_key_slices`. */
  function Collected(order: seq<nat>, slices: map<nat, Option<KeySliceInfo>>): seq<Data> {
    if order == [] then []
    else
      var before := Collected(order[..|order| - 1], slices);
      var d := order[|order| - 1];
      if d in slices && slices[d].Some? then before + [slices[d].value.slice] else before
  }

  function BundleOf(item: SignItem, order: seq<nat>): Bundle {
    Bundle(item.info.taskId, item.transaction, item.p1Signature, item.info.exec.taskType, Collected(order, item.slices))
  }

  /** `try_send_to_executor`, on an item that has just been saved. */
  function TrySendBundle(item: SignItem, order: seq<nat>): SignOutcome {
    if !ReadyToSend(item) then SignOutcome(item, [], true)
    else if item.executor.None? then SignOutcome(item, [], false)
    else
      SignOutcome(item.(state := SignSentToExecutor),
                  [BundleMsg(item.executor.value.peer, BundleOf(item, order))], true)
  }

  /** `process_executor_sign_with_key_slices_request`. */
  function OnSignRequest(item: SignItem, peer: Id, pub: RsaPublic): SignOutcome {
    SignOutcome(item, if item.executor.Some? then [] else [ExecutorAttested(peer, pub)], true)
  }

  function PairsWith(peers: seq<Id>, d: nat): seq<(Id, nat)> {
    seq(|peers|, i requires 0 <= i < |peers| => (peers[i], d))
  }

  /** The queued candidates, in the order in which the map is drained. */
  function Drained(order: seq<nat>, candidates: map<nat, seq<Id>>): seq<(Id, nat)> {
    if order == [] then []
    else
      var d := order[|order| - 1];
      var peers := if d in candidates then candidates[d] else [];
      Drained(order[..|order| - 1], candidates) + PairsWith(peers, d)
  }

  function Queries(pairs: seq<(Id, nat)>, pub: RsaPublic): (r: seq<SignEvent>)
    ensures |r| == |pairs|
    ensures forall i :: 0 <= i < |r| ==> r[i] == SliceQuery(pairs[i].0, pairs[i].1, pub)
  {
    seq(|pairs|, i requires 0 <= i < |pairs| => SliceQuery(pairs[i].0, pairs[i].1, pub))
  }

  /** `on_executor_ra_success`: the first executor stays; the queue is drained and, unless
      slices suffice already, everybody in it is asked. */
  function OnExecutorAttested(item: SignItem, who: NodeInfo, queue: seq<nat>, order: seq<nat>): SignOutcome {
    if item.executor.Some? then SignOutcome(item, [], true)
    else
      var chosen := item.(executor := Some(who), candidates := map[]);
      if ReadyToSend(chosen) then TrySendBundle(chosen, order)
      else SignOutcome(chosen, Queries(Drained(queue, item.candidates), who.pub), true)
  }

  /** `on_pinner_ra_success`. */
  function OnPinnerAttested(item: SignItem, peer: Id, d: nat): SignOutcome {
    if HasFound(item, d) then SignOutcome(item, [], true)
    else if item.executor.Some? then SignOutcome(item, [SliceQuery(peer, d, item.executor.value.pub)], true)
    else if d !in item.candidates then SignOutcome(item, [], false)
    else SignOutcome(item.(candidates := item.candidates[d := item.candidates[d] + [peer]]), [], true)
  }

  /** `process_pinner_key_slice_response`: the first slice of a deployment stays. */
  function OnSliceReply(item: SignItem, peer: Id, d: nat, slice: Data, order: seq<nat>): SignOutcome {
    if HasFound(item, d) then SignOutcome(item, [], true)
    else if d !in item.slices then SignOutcome(item, [], false)
    else TrySendBundle(item.(slices := item.slices[d := Some(KeySliceInfo(peer, slice))]), order)
  }

  /** `process_commit_sign_result_request`. */
  function OnCommit(item: SignItem): SignOutcome {
    SignOutcome(item.(state := CommitResult), [], true)
  }
}
