/** All tasks together: any number of key generation and signing tasks, their messages
    interleaved in any way, over one set of deployments, blocks, records and fresh values.
    Layer 1 gives every task its own id, and hands a signing task the deployments that
    were reported for its account. */
module Wallet {
  import opened Types
  import opened SymbolicCrypto
  import opened KeyGenTypes
  import opened Environment
  import opened DelegatorKeyGen
  import opened KeyGenProtocol
  import opened KeyGenInvariant
  import opened KeyGenSteps
  import opened KeyGenSafety
  import opened KeyGenResults
  import opened SignTypes
  import opened DelegatorSign
  import opened SignProtocol
  import opened SignInvariant
  import opened SignSafety
  import opened SignStages
  import opened Agreement

  /** A signing task and the key generation task that made its account. */
  datatype Signing = Signing(task: SignTask, source: Id)

  datatype World = World(env: Env, gens: map<Id, KeyGenTask>, signs: map<Id, Signing>)

  const EMPTY_WORLD := World(Env(0, 0, {}, map[], map[], map[], map[]), map[], map[])

  datatype Step =
    | BeginKeyGen(event: KeyGenerationEvent, nonce: Data)
    | StepKeyGen(id: Id, action: Action)
    | BeginSign(request: SignEventData, nonce: Data, source: Id, exec: ExecInfo)
    | StepSign(id: Id, signAction: SignAction)

  ghost predicate CanStep(w: World, s: Step) {
    match s
    case BeginKeyGen(e, nonce) =>
      && e.taskId !in w.gens && e.taskId !in w.signs
      && Started(e, nonce).Some? && Started(e, nonce).value.info.exec.n <= 254
    case StepKeyGen(id, a) =>
      id in w.gens && w.gens[id].at.item.info.exec.n != 0 && Enabled(w.gens[id], a)
    case BeginSign(e, nonce, source, exec) =>
      && e.taskId !in w.gens && e.taskId !in w.signs
      && source in w.gens && w.gens[source].at.reports != []
      && e.account == w.gens[source].at.reports[0].account
    case StepSign(id, a) => id in w.signs && SignEnabled(w.signs[id].task, a)
  }

  ghost function Stepped(w: World, s: Step): World
    requires CanStep(w, s)
  {
    match s
    case BeginKeyGen(e, nonce) => w.(gens := w.gens[e.taskId := Begin(Started(e, nonce).value)])
    case StepKeyGen(id, a) =>
      var (t, env) := Next(w.gens[id], w.env, a);
      w.(gens := w.gens[id := t], env := env)
    case BeginSign(e, nonce, source, exec) =>
      var ids := w.gens[source].at.reports[0].deployments;
      w.(signs := w.signs[e.taskId := Signing(SignBegin(SignStarted(e, nonce, exec, ids)), source)])
    case StepSign(id, a) =>
      var (t, env) := SignNext(w.signs[id].task, w.env, a);
      w.(signs := w.signs[id := w.signs[id].(task := t)], env := env)
  }

  /** Where these steps lead from the empty world, if each can be taken. */
  ghost function After(steps: seq<Step>): Option<World> {
    if steps == [] then Some(EMPTY_WORLD)
    else
      match After(steps[..|steps| - 1])
      case None => None
      case Some(w) =>
        if CanStep(w, steps[|steps| - 1]) then Some(Stepped(w, steps[|steps| - 1])) else None
  }

  ghost predicate Reachable(w: World) {
    exists steps :: After(steps) == Some(w)
  }

  // ---------------------------------------------------------------- the invariant

  ghost predicate GenOk(id: Id, t: KeyGenTask, env: Env) {
    Inv(t, env) && t.at.item.info.taskId == id && PeersAgree(t.at)
  }

  /** The key generation tasks that may stand under an id. */
  ghost function SoundGens(id: Id, env: Env): iset<KeyGenTask> {
    iset t: KeyGenTask | GenOk(id, t, env)
  }

  ghost predicate SourceOk(s: Signing, gens: map<Id, KeyGenTask>) {
    && s.source in gens && gens[s.source].at.reports != []
    && s.task.at.item.account == gens[s.source].at.reports[0].account
    && forall d :: d in s.task.at.item.slices <==> d in gens[s.source].at.reports[0].deployments
  }

  /** The signing tasks that may stand next to these key generation tasks. */
  ghost function SoundSigns(gens: map<Id, KeyGenTask>, env: Env): iset<Signing> {
    iset s: Signing | SignInv(s.task, env) && SourceOk(s, gens) && Staged(s.task) && SignersAgree(s.task.at)
  }

  /** The worlds in which every task is as it should be. */
  ghost const GOOD: iset<World> :=
    iset w: World |
      && EnvOk(w.env)
      && (forall id :: id in w.gens ==> w.gens[id] in SoundGens(id, w.env))
      && (forall id :: id in w.signs ==> w.signs[id] in SoundSigns(w.gens, w.env))

  // ---------------------------------------------------------------- frames

  /** Records that differ belong to accounts of other tasks. */
  ghost predicate ForeignRecords(env: Env, env': Env, taskId: Id) {
    forall key :: !SameRecord(env, env', key) ==>
      && AccountKey(key.1).Some? && AccountKey(key.1).value in env.origin
      && env.origin[AccountKey(key.1).value] != taskId
  }

  lemma OwnSame(item: KeyGenItem, env: Env, env': Env, p: Id)
    requires KeysOk(item, env) && ForeignRecords(env, env', item.info.taskId)
    ensures SameRecord(env, env', (p, item.account.value))
  {
    assert AccountKey(item.account.value) == Some(item.p2.value.secret.id);
  }

  lemma FrameEvent(c: Stored, env: Env, env': Env, f: KeyGenEvent)
    requires f in Allowed(c, env) && Grows(env, env') && ForeignRecords(env, env', c.item.info.taskId)
    requires c.item.account.Some? ==> KeysOk(c.item, env)
    ensures f in Allowed(c, env')
  {
    if f.ExecutionResponseMsg? {
      var x := f.result;
      forall p: Id ensures !HasRecord(env', (p, x.account)) {
        OwnSame(c.item.(p2 := Some(x.p2), account := Some(x.account)), env, env', p);
        assert !HasRecord(env, (p, x.account));
      }
      assert NoRecords(env', x.account);
    } else if !f.DelegatesReply? {
      if c.item.account.Some? { OwnSame(c.item, env, env', f.peer); }
      EventStable(c, env, c, env', f);
    }
  }

  lemma FrameStage(c: Stored, env: Env, env': Env)
    requires c in InStage(env) && Grows(env, env') && ForeignRecords(env, env', c.item.info.taskId)
    ensures c in InStage(env') && (c.item.account.Some? ==> KeysOk(c.item, env))
  {
    if c.item.state == SentToInitialPinner || c.item.state == ReceivedAllPinnerResponse {
      FrameResponses(c, env, env');
    }
  }

  lemma FrameResponses(c: Stored, env: Env, env': Env)
    requires ResponsesOk(c, env) && Grows(env, env') && ForeignRecords(env, env', c.item.info.taskId)
    ensures ResponsesOk(c, env')
  {
    forall q | q in c.item.responses && c.item.responses[q].Some?
      ensures Deployed(c, env', q, c.item.responses[q].value)
    {
      OwnSame(c.item, env, env', q);
      DeployedStable(c, env, c, env', q, c.item.responses[q].value);
    }
    forall q: Id | HasRecord(env', (q, c.item.account.value)) ensures IsPinner(c.item.pinners, q) {
      OwnSame(c.item, env, env', q);
    }
  }

  /** What other tasks do does not matter to a key generation task. */
  lemma KeyGenFrame(t: KeyGenTask, env: Env, env': Env)
    requires Inv(t, env) && Grows(env, env') && ForeignRecords(env, env', t.at.item.info.taskId)
    ensures Inv(t, env')
  {
    FrameStage(t.at, env, env');
    forall f | f in t.net ensures f in Allowed(t.at, env') {
      FrameEvent(t.at, env, env', f);
    }
  }

  // ---------------------------------------------------------------- steps

  lemma BeginSound(e: KeyGenerationEvent, nonce: Data, env: Env)
    requires Started(e, nonce).Some? && Started(e, nonce).value.info.exec.n <= 254
    ensures Begin(Started(e, nonce).value) in SoundGens(e.taskId, env)
  {
    var t := Begin(Started(e, nonce).value);
    assert t.at in InStage(env) && DelegatesReply in Allowed(t.at, env);
  }

  /** Every task that was there still is, with at least the reports it had. */
  ghost predicate ReportsStay(gens: map<Id, KeyGenTask>, gens': map<Id, KeyGenTask>) {
    forall id :: id in gens ==> id in gens' && gens[id].at.reports <= gens'[id].at.reports
  }

  ghost function WithReportsOf(gens: map<Id, KeyGenTask>): iset<map<Id, KeyGenTask>> {
    iset gens': map<Id, KeyGenTask> | ReportsStay(gens, gens')
  }

  ghost function Later(env: Env): iset<Env> {
    iset env': Env | Grows(env, env') && EnvOk(env')
  }

  /** What may come of env when the task works. */
  ghost function WorkOf(id: Id, env: Env): iset<Env> {
    iset env': Env | OwnRecords(env, env', id)
  }

  lemma OtherGen(id: Id, worker: Id, t: KeyGenTask, env: Env, env': Env)
    requires t in SoundGens(id, env) && env' in Later(env) && env' in WorkOf(worker, env)
    requires id != worker || forall key :: SameRecord(env, env', key)
    ensures t in SoundGens(id, env')
  {
    KeyGenFrame(t, env, env');
  }

  lemma OtherSign(s: Signing, gens: map<Id, KeyGenTask>, gens': map<Id, KeyGenTask>, env: Env, env': Env)
    requires s in SoundSigns(gens, env) && gens' in WithReportsOf(gens) && env' in Later(env)
    ensures s in SoundSigns(gens', env')
  {
    SignFrame(s.task, env, env');
  }

  lemma OtherSigns(signs: map<Id, Signing>, gens: map<Id, KeyGenTask>, gens': map<Id, KeyGenTask>, env: Env, env': Env)
    requires forall id :: id in signs ==> signs[id] in SoundSigns(gens, env)
    requires gens' in WithReportsOf(gens) && env' in Later(env)
    ensures forall id :: id in signs ==> signs[id] in SoundSigns(gens', env')
  {
    forall id | id in signs ensures signs[id] in SoundSigns(gens', env') {
      OtherSign(signs[id], gens, gens', env, env');
    }
  }

  lemma GoodWorld(w: World)
    requires w.env in Later(w.env)
    requires forall id :: id in w.gens ==> w.gens[id] in SoundGens(id, w.env)
    requires forall id :: id in w.signs ==> w.signs[id] in SoundSigns(w.gens, w.env)
    ensures w in GOOD
  {
  }

  lemma NoWork(env: Env)
    requires EnvOk(env)
    ensures env in Later(env)
  {
  }

  lemma PutReports(gens: map<Id, KeyGenTask>, id: Id, t: KeyGenTask)
    requires id in gens ==> gens[id].at.reports <= t.at.reports
    ensures gens[id := t] in WithReportsOf(gens)
  {
  }

  lemma PutGens(gens: map<Id, KeyGenTask>, id: Id, t: KeyGenTask, env: Env, env': Env)
    requires forall g :: g in gens ==> gens[g] in SoundGens(g, env)
    requires t in SoundGens(id, env') && env' in Later(env) && env' in WorkOf(id, env)
    ensures var gens' := gens[id := t]; forall g :: g in gens' ==> gens'[g] in SoundGens(g, env')
  {
    forall g | g in gens && g != id ensures gens[g] in SoundGens(g, env') {
      OtherGen(g, id, gens[g], env, env');
    }
  }

  /** A world in which the task under an id is put back after some work. */
  lemma PutGen(w: World, id: Id, t: KeyGenTask, env: Env)
    requires w in GOOD && t in SoundGens(id, env) && env in Later(w.env)
    requires env in WorkOf(id, w.env) && (id in w.gens ==> w.gens[id].at.reports <= t.at.reports)
    ensures w.(gens := w.gens[id := t], env := env) in GOOD
  {
    PutReports(w.gens, id, t);
    PutGens(w.gens, id, t, w.env, env);
    OtherSigns(w.signs, w.gens, w.gens[id := t], w.env, env);
    NoWork(env);
    GoodWorld(w.(gens := w.gens[id := t], env := env));
  }

  lemma AllGens(gens: map<Id, KeyGenTask>, env: Env, env': Env)
    requires forall g :: g in gens ==> gens[g] in SoundGens(g, env)
    requires env' in Later(env) && forall key :: SameRecord(env, env', key)
    ensures forall g :: g in gens ==> gens[g] in SoundGens(g, env')
    ensures gens in WithReportsOf(gens)
  {
    forall g | g in gens ensures gens[g] in SoundGens(g, env') {
      OtherGen(g, g, gens[g], env, env');
    }
  }

  lemma PutSigns(signs: map<Id, Signing>, id: Id, s: Signing, sound: iset<Signing>)
    requires s in sound && forall i :: i in signs ==> signs[i] in sound
    ensures var signs' := signs[id := s]; forall i :: i in signs' ==> signs'[i] in sound
  {
  }

  lemma PutSign(w: World, id: Id, s: Signing, env: Env)
    requires w in GOOD && s in SoundSigns(w.gens, env) && env in Later(w.env)
    requires forall key :: SameRecord(w.env, env, key)
    ensures w.(signs := w.signs[id := s], env := env) in GOOD
  {
    AllGens(w.gens, w.env, env);
    OtherSigns(w.signs, w.gens, w.gens, w.env, env);
    PutSigns(w.signs, id, s, SoundSigns(w.gens, env));
    NoWork(env);
    GoodWorld(w.(signs := w.signs[id := s], env := env));
  }

  lemma BeginKeyGenGood(w: World, e: KeyGenerationEvent, nonce: Data)
    requires w in GOOD && CanStep(w, BeginKeyGen(e, nonce))
    ensures Stepped(w, BeginKeyGen(e, nonce)) in GOOD
  {
    BeginSound(e, nonce, w.env);
    NoWork(w.env);
    PutGen(w, e.taskId, Begin(Started(e, nonce).value), w.env);
  }

  lemma StepGen(id: Id, t: KeyGenTask, env: Env, a: Action)
    requires t in SoundGens(id, env) && EnvOk(env) && Enabled(t, a) && t.at.item.info.exec.n != 0
    ensures var (t', env') := Next(t, env, a);
      && t' in SoundGens(id, env') && env' in Later(env) && env' in WorkOf(id, env)
      && t.at.reports <= t'.at.reports
  {
    NextKeeps(t, env, a);
    StagesAdvance(t, env, a);
    PeersKept(t, env, a);
  }

  lemma StepKeyGenGood(w: World, id: Id, a: Action)
    requires w in GOOD && CanStep(w, StepKeyGen(id, a))
    ensures Stepped(w, StepKeyGen(id, a)) in GOOD
  {
    StepGen(id, w.gens[id], w.env, a);
    var (t, env) := Next(w.gens[id], w.env, a);
    PutGen(w, id, t, env);
  }

  lemma BeginSigning(e: SignEventData, nonce: Data, exec: ExecInfo, source: Id, gens: map<Id, KeyGenTask>, env: Env)
    requires source in gens && gens[source].at.reports != [] && e.account == gens[source].at.reports[0].account
    ensures Signing(SignBegin(SignStarted(e, nonce, exec, gens[source].at.reports[0].deployments)), source)
              in SoundSigns(gens, env)
  {
    SignBeginSound(e, nonce, exec, gens[source].at.reports[0].deployments, env);
  }

  lemma BeginSignGood(w: World, e: SignEventData, nonce: Data, source: Id, exec: ExecInfo)
    requires w in GOOD && CanStep(w, BeginSign(e, nonce, source, exec))
    ensures Stepped(w, BeginSign(e, nonce, source, exec)) in GOOD
  {
    BeginSigning(e, nonce, exec, source, w.gens, w.env);
    NoWork(w.env);
    var ids := w.gens[source].at.reports[0].deployments;
    PutSign(w, e.taskId, Signing(SignBegin(SignStarted(e, nonce, exec, ids)), source), w.env);
  }

  lemma StepSigning(s: Signing, gens: map<Id, KeyGenTask>, env: Env, a: SignAction)
    requires s in SoundSigns(gens, env) && EnvOk(env) && SignEnabled(s.task, a)
    ensures var (t, env') := SignNext(s.task, env, a);
      && s.(task := t) in SoundSigns(gens, env') && env' in Later(env)
      && (forall key :: SameRecord(env, env', key))
  {
    SignNextKeeps(s.task, env, a);
    StageGoesBackIff(s.task, env, a);
    SignersKept(s.task, env, a);
  }

  lemma StepSignGood(w: World, id: Id, a: SignAction)
    requires w in GOOD && CanStep(w, StepSign(id, a))
    ensures Stepped(w, StepSign(id, a)) in GOOD
  {
    StepSigning(w.signs[id], w.gens, w.env, a);
    var (t, env) := SignNext(w.signs[id].task, w.env, a);
    PutSign(w, id, w.signs[id].(task := t), env);
  }

  lemma {:induction false} AfterGood(steps: seq<Step>)
    requires After(steps).Some?
    ensures After(steps).value in GOOD
  {
    if steps != [] {
      AfterGood(steps[..|steps| - 1]);
      var w := After(steps[..|steps| - 1]).value;
      match steps[|steps| - 1] {
        case BeginKeyGen(e, nonce) => BeginKeyGenGood(w, e, nonce);
        case StepKeyGen(id, a) => StepKeyGenGood(w, id, a);
        case BeginSign(e, nonce, source, exec) => BeginSignGood(w, e, nonce, source, exec);
        case StepSign(id, a) => StepSignGood(w, id, a);
      }
    }
  }

  /** The invariant holds in every reachable world. */
  lemma ReachableGood(w: World)
    requires Reachable(w)
    ensures w in GOOD
  {
    var steps :| After(steps) == Some(w);
    AfterGood(steps);
  }
}
