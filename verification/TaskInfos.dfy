/** Building the task parameters from what arrives: narrowing from u32 to u8, then
    validation. */
module TaskInfos {
  import opened Types
  import opened KeyGenTypes

  /** `validate_task_info`. */
  function Validated(info: TaskInfo): Option<TaskInfo> {
    if info.exec.n == 0 then None
    else if info.exec.k == 0 || info.exec.n <= info.exec.k then None
    else Some(info)
  }

  function FromLayer1(e: KeyGenerationEvent): Option<TaskInfo> {
    Validated(TaskInfo(e.taskId, ExecInfo(e.n % 256, e.k % 256, e.keyType)))
  }

  function FromCandidateRequest(r: CandidateRequest): Option<TaskInfo> {
    Validated(TaskInfo(r.taskId, ExecInfo(r.n % 256, r.k % 256, r.keyType)))
  }

  /** The request that `send_key_candidate_request` writes. */
  function RequestFor(info: TaskInfo, executor: bool): CandidateRequest {
    CandidateRequest(info.taskId, info.exec.n, info.exec.k, info.exec.taskType, executor)
  }

  predicate Valid(info: TaskInfo) {
    1 <= info.exec.k < info.exec.n
  }

  /** A task is accepted exactly when the narrowed numbers satisfy 1 <= k < n, and then with
      those numbers, its own id and its key type; and a peer that is invited to an accepted
      task stores the very parameters the delegator has; it refuses those the delegator
      would have refused. */
  lemma AcceptedIff(e: KeyGenerationEvent, info: TaskInfo, executor: bool)
    ensures FromLayer1(e).Some? <==> 1 <= e.k % 256 < e.n % 256
    ensures FromLayer1(e).Some? ==> Valid(FromLayer1(e).value)
    ensures FromLayer1(e).Some? ==>
      FromLayer1(e).value == TaskInfo(e.taskId, ExecInfo(e.n % 256, e.k % 256, e.keyType))
    ensures FromCandidateRequest(RequestFor(info, executor)) == if Valid(info) then Some(info) else None
  {
  }
}
