/** What can happen: every key generation task can come to its report, and a signing task
    can commit a wrong signature exactly when its threshold is too low. */
module Possible {
  import opened Types
  import opened SymbolicCrypto
  import opened KeyGenTypes
  import opened TaskInfos
  import opened Environment
  import opened Candidates
  import opened DelegatorKeyGen
  import opened KeyGenProtocol
  import opened KeyGenProgress
  import opened KeyGenResults
  import opened SignTypes
  import opened DelegatorSign
  import opened SignProtocol
  import opened SignRuns
  import opened SignStages
  import opened Wallet
  import opened EndToEnd

  lemma Onwards(w: World, s: Step)
    requires Reachable(w) && CanStep(w, s)
    ensures Reachable(Stepped(w, s))
  {
    var steps :| After(steps) == Some(w);
    assert (steps + [s])[..|steps|] == steps;
    assert After(steps + [s]) == Some(Stepped(w, s));
  }

  lemma EmptyReachable()
    ensures Reachable(EMPTY_WORLD)
  {
    assert After([]) == Some(EMPTY_WORLD);
  }

  // ---------------------------------------------------------------- key generation

  /** Where only the task under an id has moved. */
  ghost predicate Only(w: World, id: Id, w': World) {
    && id in w.gens && id in w'.gens && w'.gens.Keys == w.gens.Keys && w'.signs == w.signs
    && w'.gens[id].at.item.info == w.gens[id].at.item.info
  }

  lemma StepOne(w: World, id: Id, a: Action)
    requires Reachable(w) && CanStep(w, StepKeyGen(id, a))
    requires Next(w.gens[id], w.env, a).0.at.item.info == w.gens[id].at.item.info
    ensures var w' := Stepped(w, StepKeyGen(id, a));
      Reachable(w') && Only(w, id, w') && w'.gens[id] == Next(w.gens[id], w.env, a).0
  {
    Onwards(w, StepKeyGen(id, a));
  }

  lemma DeliverOne(w: World, id: Id) returns (w': World)
    requires Reachable(w) && id in w.gens && Live(w.gens[id]) && w.gens[id].net != multiset{}
    ensures Reachable(w') && Only(w, id, w') && w'.gens[id] in Nearer(w.gens[id])
  {
    GenIn(w, id);
    var a := DeliveryThere(w.gens[id], w.env);
    StepOne(w, id, a);
    w' := Stepped(w, StepKeyGen(id, a));
  }

  lemma {:induction false} RunToReport(w: World, id: Id) returns (w': World)
    requires Reachable(w) && id in w.gens && Live(w.gens[id])
    ensures Reachable(w') && Only(w, id, w') && w'.gens[id].at.reports != []
    decreases Measure(w.gens[id])
  {
    if w.gens[id].net == multiset{} {
      GenIn(w, id);
      NeverStuck(w.gens[id], w.env);
      w' := w;
    } else {
      var w1 := DeliverOne(w, id);
      w' := RunToReport(w1, id);
    }
  }

  function Swarm(n: Byte): seq<Id>
    requires n < 255
  {
    seq(n, i requires 0 <= i < n => [1, i])
  }

  lemma LastApart<T>(s: seq<T>)
    requires s != []
    ensures s == s[..|s| - 1] + [s[|s| - 1]]
  {
  }

  lemma {:induction false} NobodyExcluded(ids: seq<Id>, filtered: seq<Id>)
    requires forall i :: 0 <= i < |ids| ==> ids[i] !in filtered
    ensures Excluding(ids, filtered) == ids
  {
    if ids != [] {
      LastApart(ids);
      NobodyExcluded(ids[..|ids| - 1], filtered);
    }
  }

  /** One delegate and n other peers are enough. */
  lemma EnoughPeers(info: TaskInfo)
    requires 1 <= info.exec.n <= 254
    ensures var swarm := Swarm(info.exec.n);
      Distinct(swarm) && |Invited(info.exec.n, info.taskId, swarm, [[0]])| == info.exec.n
  {
    NobodyExcluded(Swarm(info.exec.n), [[0]]);
  }

  lemma BeginLive(w: World, e: KeyGenerationEvent, nonce: Data) returns (w': World)
    requires Reachable(w) && CanStep(w, BeginKeyGen(e, nonce))
    ensures Reachable(w') && e.taskId in w'.gens && Live(w'.gens[e.taskId])
    ensures w'.gens[e.taskId].at.item.info == Started(e, nonce).value.info
    ensures w'.gens.Keys == w.gens.Keys + {e.taskId} && w'.signs == w.signs
  {
    var item := Started(e, nonce).value;
    var inputs := Inputs([[0]], Swarm(item.info.exec.n), [], []);
    EnoughPeers(item.info);
    StartSuppliedIff(item, w.env, inputs);
    Onwards(w, BeginKeyGen(e, nonce));
    var w1 := Stepped(w, BeginKeyGen(e, nonce));
    var s := StepKeyGen(e.taskId, Deliver(DelegatesReply, inputs));
    assert w1.gens[e.taskId] == Begin(item);
    Onwards(w1, s);
    w' := Stepped(w1, s);
  }

  /** From every reachable world, every key generation task that layer 1 can begin there can
      come to its report. */
  lemma TaskCanReport(w: World, e: KeyGenerationEvent, nonce: Data) returns (w': World)
    requires Reachable(w) && CanStep(w, BeginKeyGen(e, nonce))
    ensures Reachable(w') && e.taskId in w'.gens && w'.gens[e.taskId].at.reports != []
    ensures w'.gens[e.taskId].at.item.info == Started(e, nonce).value.info
    ensures w'.gens.Keys == w.gens.Keys + {e.taskId} && w'.signs == w.signs
  {
    var w1 := BeginLive(w, e, nonce);
    w' := RunToReport(w1, e.taskId);
  }

  // ---------------------------------------------------------------- signing

  /** What a run of one task leads to, in the world. */
  ghost function Moved(w: World, id: Id, t: SignTask, env: Env): World
    requires id in w.signs
  {
    w.(signs := w.signs[id := w.signs[id].(task := t)], env := env)
  }

  lemma {:induction false} RunInWorld(w: World, id: Id, actions: seq<SignAction>)
    requires Reachable(w) && id in w.signs && SignAfter(w.signs[id].task, w.env, actions).Some?
    ensures var s := SignAfter(w.signs[id].task, w.env, actions).value; Reachable(Moved(w, id, s.0, s.1))
  {
    if actions == [] {
      assert Moved(w, id, w.signs[id].task, w.env) == w;
    } else {
      var init := actions[..|actions| - 1];
      RunInWorld(w, id, init);
      var s := SignAfter(w.signs[id].task, w.env, init).value;
      var w1 := Moved(w, id, s.0, s.1);
      Onwards(w1, StepSign(id, actions[|actions| - 1]));
      var s' := SignAfter(w.signs[id].task, w.env, actions).value;
      assert Stepped(w1, StepSign(id, actions[|actions| - 1])) == Moved(w, id, s'.0, s'.1);
    }
  }

  /** The threshold that the key behind a signing task was shared with. */
  ghost function Threshold(w: World, id: Id): nat
    requires id in w.signs && w.signs[id].source in w.gens
  {
    w.gens[w.signs[id].source].at.item.info.exec.k
  }

  /** Something was committed, or is about to be, that layer 1 does not wait for. */
  ghost predicate Forged(w: World, id: Id) {
    && id in w.signs && w.signs[id].source in w.gens && w.gens[w.signs[id].source].at.reports != []
    && var p2 := SourceReport(w, id).p2;
       p2.PublicOf? && !AllAuthentic(w.signs[id].task, p2)
  }

  lemma ReachedInWorld(w: World, id: Id, t: SignTask, env: Env)
    requires Reachable(w) && id in w.signs && SignReached(w.signs[id].task, w.env, t, env)
    ensures Reachable(Moved(w, id, t, env))
  {
    var actions :| SignAfter(w.signs[id].task, w.env, actions) == Some((t, env));
    RunInWorld(w, id, actions);
  }

  lemma ReportOf(w: World, source: Id) returns (r: Report)
    requires Reachable(w) && source in w.gens && w.gens[source].at.reports != []
    ensures r == w.gens[source].at.reports[0] && EnvOk(w.env) && Valid(w.gens[source].at.item.info)
    ensures w.gens[source].at.item.info.exec.n <= 254
    ensures var exec := w.gens[source].at.item.info.exec; SharesBehind(w.env, r.p2, r.deployments, exec.n, exec.k)
  {
    GenIn(w, source);
    ReportSound(w.gens[source], w.env);
    r := w.gens[source].at.reports[0];
  }

  /** From any reachable world: an account that needs more slices than its signing task asks
      for can come to be signed for with a wrong key, by whomever is the executor. */
  lemma CanBeForged(w: World, e: SignEventData, nonce: Data, source: Id, exec: ExecInfo, me: Id) returns (w': World)
    requires Reachable(w) && CanStep(w, BeginSign(e, nonce, source, exec))
    requires 1 <= exec.k < w.gens[source].at.item.info.exec.k
    ensures Reachable(w') && Forged(w', e.taskId) && w'.gens == w.gens
    ensures w'.signs[e.taskId].source == source && w'.signs[e.taskId].task.at.item.info.exec == exec
  {
    var r := ReportOf(w, source);
    var sharing := w.gens[source].at.item.info.exec;
    Onwards(w, BeginSign(e, nonce, source, exec));
    var w1 := Stepped(w, BeginSign(e, nonce, source, exec));
    var t', env' := ForgedRun(e, nonce, exec, r.deployments, w.env, me, r.p2, sharing.n, sharing.k);
    ReachedInWorld(w1, e.taskId, t', env');
    w' := Moved(w1, e.taskId, t', env');
  }

  // ---------------------------------------------------------------- exact conditions

  /** Some reachable world holds a wrong commit for a key of threshold t by a task with these
      parameters. */
  ghost predicate Forgeable(exec: ExecInfo, t: nat) {
    exists w, id :: Reachable(w) && Forged(w, id) && w.signs[id].task.at.item.info.exec == exec && Threshold(w, id) == t
  }

  lemma NotForged(w: World, id: Id)
    requires Reachable(w) && id in w.signs && w.signs[id].source in w.gens
    requires 1 <= w.signs[id].task.at.item.info.exec.k && Threshold(w, id) <= w.signs[id].task.at.item.info.exec.k
    ensures !Forged(w, id)
  {
    SignIn(w, id);
    var s := w.signs[id];
    var r := ReportOf(w, s.source);
    var sharing := w.gens[s.source].at.item.info.exec;
    SoundAuthentic(s.task, w.env, r.deployments, r.p2, sharing.n, sharing.k);
  }

  /** A world in which a key of threshold t has been reported. */
  lemma SomeReport(t: nat) returns (w: World, source: Id)
    requires 1 <= t <= 253
    ensures Reachable(w) && w.gens.Keys == {source} && w.signs == map[] && source == [0]
    ensures w.gens[source].at.reports != [] && w.gens[source].at.item.info.exec.k == t
  {
    EmptyReachable();
    source := [0];
    w := TaskCanReport(EMPTY_WORLD, KeyGenerationEvent(source, t + 1, t, "key", Text("p1")), Text("nonce"));
  }

  /** Integrity of the whole, exactly: signing tasks with given parameters can commit a wrong
      signature for keys of threshold t if and only if they ask for fewer than t slices
      (and t is one that key generation can have). */
  lemma ForgeableIff(exec: ExecInfo, t: nat)
    requires 1 <= exec.k
    ensures Forgeable(exec, t) <==> exec.k < t <= 253
  {
    if Forgeable(exec, t) {
      var w, id :| Reachable(w) && Forged(w, id) && w.signs[id].task.at.item.info.exec == exec && Threshold(w, id) == t;
      var r := ReportOf(w, w.signs[id].source);
      if t <= exec.k { NotForged(w, id); }
    }
    if exec.k < t <= 253 {
      var w, source := SomeReport(t);
      var e := SignEventData([1], w.gens[source].at.reports[0].account, Text("p1"), Text("transaction"));
      var w' := CanBeForged(w, e, Text("nonce"), source, exec, [2]);
    }
  }

  /** With the parameters in the code: every key that needs two slices or more is at risk. */
  lemma FixedParametersForgeableIff(t: nat)
    ensures Forgeable(FIXED_EXEC, t) <==> 2 <= t <= 253
  {
    ForgeableIff(FIXED_EXEC, t);
  }

  /** From any reachable world: the stage of a signing task that asks for fewer slices than
      there are can come to go back. */
  lemma StageCanGoBack(w: World, e: SignEventData, nonce: Data, source: Id, exec: ExecInfo, me: Id)
    returns (w': World, a: SignAction)
    requires Reachable(w) && CanStep(w, BeginSign(e, nonce, source, exec))
    requires 1 <= exec.k < w.gens[source].at.item.info.exec.n
    ensures Reachable(w') && CanStep(w', StepSign(e.taskId, a)) && Reopens(w'.signs[e.taskId].task.at, a)
  {
    var r := ReportOf(w, source);
    var sharing := w.gens[source].at.item.info.exec;
    Onwards(w, BeginSign(e, nonce, source, exec));
    var w1 := Stepped(w, BeginSign(e, nonce, source, exec));
    var t', env';
    t', env', a := ReopenRun(e, nonce, exec, r.deployments, w.env, me, r.p2, sharing.n, sharing.k);
    ReachedInWorld(w1, e.taskId, t', env');
    w' := Moved(w1, e.taskId, t', env');
  }
}
