/** What layer 1 asked for is what the tasks work on: in every run, each task's item holds
    the data of the one event that began it. */
module Requests {
  import opened Types
  import opened SymbolicCrypto
  import opened KeyGenTypes
  import opened Environment
  import opened DelegatorKeyGen
  import opened KeyGenProtocol
  import opened KeyGenSafety
  import opened SignTypes
  import opened DelegatorSign
  import opened SignProtocol
  import opened SignSafety
  import opened SignPeerSteps
  import opened Wallet

  /** The parameters that a key generation event asks for: u32 numbers narrowed to u8. */
  function AskedInfo(e: KeyGenerationEvent): TaskInfo {
    TaskInfo(e.taskId, ExecInfo(e.n % 256, e.k % 256, e.keyType))
  }

  predicate KeepsEvent(item: KeyGenItem, e: KeyGenerationEvent, nonce: Data) {
    item.info == AskedInfo(e) && item.p1 == e.p1 && item.nonce == nonce
  }

  predicate KeepsRequest(item: SignItem, request: SignEventData, nonce: Data, exec: ExecInfo) {
    && item.info == TaskInfo(request.taskId, exec) && item.account == request.account
    && item.p1Signature == request.p1Signature && item.transaction == request.transaction && item.nonce == nonce
  }

  /** The task that a step began holds what the step asked for. */
  ghost predicate Honoured(w: World, s: Step) {
    match s
    case BeginKeyGen(e, nonce) => e.taskId in w.gens && KeepsEvent(w.gens[e.taskId].at.item, e, nonce)
    case BeginSign(request, nonce, source, exec) =>
      && request.taskId in w.signs && w.signs[request.taskId].source == source
      && KeepsRequest(w.signs[request.taskId].task.at.item, request, nonce, exec)
    case _ => true
  }

  ghost function Honouring(s: Step): iset<World> {
    iset w: World | Honoured(w, s)
  }

  lemma FreshHonours(w: World, s: Step)
    requires CanStep(w, s) && (s.BeginKeyGen? || s.BeginSign?)
    ensures Stepped(w, s) in Honouring(s)
  {
  }

  lemma PutGenHonours(w: World, s: Step, id: Id, t: KeyGenTask, env: Env)
    requires w in Honouring(s) && id in w.gens && SameTask(t.at.item, w.gens[id].at.item)
    ensures w.(gens := w.gens[id := t], env := env) in Honouring(s)
  {
  }

  lemma PutSignHonours(w: World, s: Step, id: Id, t: SignTask, env: Env)
    requires w in Honouring(s) && id in w.signs && Unmoved(w.signs[id].task.at, t.at)
    ensures w.(signs := w.signs[id := w.signs[id].(task := t)], env := env) in Honouring(s)
  {
  }

  lemma AddGenHonours(w: World, s: Step, id: Id, t: KeyGenTask)
    requires w in Honouring(s) && id !in w.gens
    ensures w.(gens := w.gens[id := t]) in Honouring(s)
  {
  }

  lemma AddSignHonours(w: World, s: Step, id: Id, t: Signing)
    requires w in Honouring(s) && id !in w.signs
    ensures w.(signs := w.signs[id := t]) in Honouring(s)
  {
  }

  lemma GenKeepsTask(id: Id, t: KeyGenTask, env: Env, a: Action)
    requires t in SoundGens(id, env) && EnvOk(env) && Enabled(t, a) && t.at.item.info.exec.n != 0
    ensures SameTask(Next(t, env, a).0.at.item, t.at.item)
  {
    NextKeeps(t, env, a);
  }

  lemma SignKeepsTask(s: Signing, w: World, a: SignAction)
    requires s in SoundSigns(w.gens, w.env) && EnvOk(w.env) && SignEnabled(s.task, a)
    ensures Unmoved(s.task.at, SignNext(s.task, w.env, a).0.at)
  {
    SignNextKeeps(s.task, w.env, a);
  }

  lemma GenStepHonours(w: World, s: Step, id: Id, a: Action)
    requires w in GOOD && CanStep(w, StepKeyGen(id, a)) && w in Honouring(s)
    ensures Stepped(w, StepKeyGen(id, a)) in Honouring(s)
  {
    GenKeepsTask(id, w.gens[id], w.env, a);
    var (t, env) := Next(w.gens[id], w.env, a);
    PutGenHonours(w, s, id, t, env);
  }

  lemma SignStepHonours(w: World, s: Step, id: Id, a: SignAction)
    requires w in GOOD && CanStep(w, StepSign(id, a)) && w in Honouring(s)
    ensures Stepped(w, StepSign(id, a)) in Honouring(s)
  {
    SignKeepsTask(w.signs[id], w, a);
    var (t, env) := SignNext(w.signs[id].task, w.env, a);
    PutSignHonours(w, s, id, t, env);
  }

  lemma StepHonours(w: World, s: Step, next: Step)
    requires w in GOOD && CanStep(w, next) && w in Honouring(s)
    ensures Stepped(w, next) in Honouring(s)
  {
    match next {
      case StepKeyGen(id, a) => GenStepHonours(w, s, id, a);
      case StepSign(id, a) => SignStepHonours(w, s, id, a);
      case BeginKeyGen(e, nonce) => AddGenHonours(w, s, e.taskId, Begin(Started(e, nonce).value));
      case BeginSign(e, nonce, source, exec) =>
        var ids := w.gens[source].at.reports[0].deployments;
        AddSignHonours(w, s, e.taskId, Signing(SignBegin(SignStarted(e, nonce, exec, ids)), source));
    }
  }

  lemma LastHonours(w: World, s: Step)
    requires CanStep(w, s)
    ensures Stepped(w, s) in Honouring(s)
  {
    if s.BeginKeyGen? || s.BeginSign? { FreshHonours(w, s); }
  }

  lemma InInit<T>(s: seq<T>, x: T)
    requires s != [] && x in s && x != s[|s| - 1]
    ensures x in s[..|s| - 1]
  {
    var i :| 0 <= i < |s| && s[i] == x;
    assert s[..|s| - 1][i] == x;
  }

  /** Along every run: what a step asked for when it began a task is what the task's item
      holds, to the end of the run. */
  lemma {:induction false} RunHonours(steps: seq<Step>, s: Step)
    requires After(steps).Some? && s in steps
    ensures After(steps).value in Honouring(s)
  {
    var init, last := steps[..|steps| - 1], steps[|steps| - 1];
    if s == last {
      LastHonours(After(init).value, last);
    } else {
      InInit(steps, s);
      RunHonours(init, s);
      AfterGood(init);
      StepHonours(After(init).value, s, last);
    }
  }

  predicate Begins(s: Step, id: Id, signing: bool) {
    if signing then s.BeginSign? && s.request.taskId == id else s.BeginKeyGen? && s.event.taskId == id
  }

  lemma OnlyBegun(w: World, s: Step, id: Id, signing: bool)
    requires CanStep(w, s)
    requires if signing then id in Stepped(w, s).signs else id in Stepped(w, s).gens
    ensures Begins(s, id, signing) || if signing then id in w.signs else id in w.gens
  {
  }

  /** And every task there is was begun by a step. */
  lemma {:induction false} WasBegun(steps: seq<Step>, id: Id, signing: bool) returns (s: Step)
    requires After(steps).Some?
    requires var w := After(steps).value; if signing then id in w.signs else id in w.gens
    ensures s in steps && Begins(s, id, signing)
  {
    var init, last := steps[..|steps| - 1], steps[|steps| - 1];
    if Begins(last, id, signing) {
      s := last;
    } else {
      OnlyBegun(After(init).value, last, id, signing);
      s := WasBegun(init, id, signing);
    }
  }
}
