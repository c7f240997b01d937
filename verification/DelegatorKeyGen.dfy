/** The delegator's key generation handlers, as functions on the stored item. */
module DelegatorKeyGen {
  import opened Types
  import opened SymbolicCrypto
  import opened KeyGenTypes
  import opened TaskInfos
  import opened Candidates

  /** The item that `process_key_generation_event` has saved when it returns, with the
      delegate list still to come. */
  function Started(e: KeyGenerationEvent, nonce: Data): Option<KeyGenItem> {
    match FromLayer1(e)
    case None => None
    case Some(info) =>
      Some(KeyGenItem(info, InvitedCandidates, nonce, None, [], e.p1, None, None, map[], [], []))
  }

  function Profiles(delegates: seq<Id>): seq<KeyGenEvent> {
    seq(|delegates|, i requires 0 <= i < |delegates| => ProfileReply(delegates[i]))
  }

  function PinnerInvitations(info: TaskInfo, peers: seq<Id>): seq<KeyGenEvent> {
    seq(|peers|, i requires 0 <= i < |peers| => CandidateMsg(peers[i], RequestFor(info, false)))
  }

  /** The reply to `get_delegates`: look every delegate up, and invite the nearest swarm
      peers that are no delegates to be pinners. */
  function OnDelegates(info: TaskInfo, delegates: seq<Id>, swarm: seq<Id>): seq<KeyGenEvent>
    requires info.exec.n != 0
  {
    Profiles(delegates) + PinnerInvitations(info, Invited(info.exec.n, info.taskId, swarm, delegates))
  }

  function Awaiting(pinners: seq<PinnerSlice>): (m: map<Id, Option<nat>>)
    ensures forall p :: p in m <==> exists i :: 0 <= i < |pinners| && pinners[i].peer == p
    ensures forall p :: p in m ==> m[p] == None
  {
    map i | 0 <= i < |pinners| :: pinners[i].peer := None
  }

  function SliceRequests(x: ExecutionResponse, taskId: Id): (r: seq<KeyGenEvent>)
    ensures |r| == |x.pinners|
    ensures forall i :: 0 <= i < |r| ==> r[i].SliceRequestMsg? && r[i].peer == x.pinners[i].peer
  {
    seq(|x.pinners|, i requires 0 <= i < |x.pinners| =>
      SliceRequestMsg(x.pinners[i].peer, SliceRequest(taskId, x.p2, x.pinners[i].slice, x.account)))
  }

  /** `process_task_execution_response`. It checks neither the stage nor the sender. */
  function OnExecutionResponse(item: KeyGenItem, x: ExecutionResponse): Outcome {
    Done(item.(p2 := Some(x.p2), account := Some(x.account), state := SentToInitialPinner,
               responses := item.responses + Awaiting(x.pinners)),
         SliceRequests(x, item.info.taskId))
  }

  /** `is_all_initial_pinners_ready`. */
  predicate AllReady(responses: map<Id, Option<nat>>) {
    forall p :: p in responses ==> responses[p].Some?
  }

  /** The deployment ids that are known, in the order the response map is walked. */
  function Known(order: seq<Id>, responses: map<Id, Option<nat>>): seq<nat> {
    if order == [] then []
    else
      var before := Known(order[..|order| - 1], responses);
      var p := order[|order| - 1];
      if p in responses && responses[p].Some? then before + [responses[p].value] else before
  }

  /** The conversion of the item into the result for layer 1. */
  function ReportOf(item: KeyGenItem, order: seq<Id>): Option<Report> {
    if item.account.None? || item.p2.None? then None
    else Some(Report(item.info.taskId, item.nonce, item.account.value, item.p2.value, Known(order, item.responses)))
  }

  /** `ok` is false where the handler returns an error. */
  datatype SliceOutcome = SliceOutcome(item: KeyGenItem, report: Option<Report>, ok: bool)

  /** `process_task_pinner_key_slice_response`. */
  function OnSliceResponse(item: KeyGenItem, peer: Id, d: nat, order: seq<Id>): SliceOutcome {
    if peer !in item.responses then SliceOutcome(item, None, true)
    else
      var answered := item.(responses := item.responses[peer := Some(d)]);
      if AllReady(answered.responses) then
        var complete := answered.(state := ReceivedAllPinnerResponse);
        SliceOutcome(complete, ReportOf(complete, order), ReportOf(complete, order).Some?)
      else
        SliceOutcome(answered, None, true)
  }
}
