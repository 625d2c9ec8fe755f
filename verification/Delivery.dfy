/**
 What the worker delivers: three attempts, the first usable reply, published if the
 session still waits for it; and the whole path from the last input to the result.
 */
module Delivery {
  import opened Wrappers
  import opened Records
  import opened SessionRules
  import opened Server
  import opened SessionInvariant
  import opened ServerInvariant
  import opened Sweeping
  import opened Runs
  import opened Answers
  import opened Prompt

  // ----- the attempts -----

  /** The engine answered, and the text without its fences is accepted by the schema, if there is one. */
  predicate Usable(lib: Library, schema: string, reply: Option<string>) {
    reply.Some? && (schema == "" || Accepts(lib, lib.strip(reply.value), schema))
  }

  /** Attempt `i` of three is the first one that is usable. */
  predicate FirstUsable(lib: Library, schema: string, replies: seq<Option<string>>, i: int)
    requires |replies| == 3
  {
    0 <= i < 3 && Usable(lib, schema, replies[i]) && forall j | 0 <= j < i :: !Usable(lib, schema, replies[j])
  }

  /** `text` is what comes out of three attempts: the first usable reply, unless it is empty. */
  ghost predicate ComesOut(env: Env, schema: string, replies: seq<Option<string>>, text: Option<string>)
    requires |replies| == 3
  {
    && (forall i | FirstUsable(env.lib, schema, replies, i) ::
          env.hasEngine && env.lib.strip(replies[i].value) != "" ==> text == Some(env.lib.strip(replies[i].value)))
    && (text.None? <==>
          || !env.hasEngine
          || (forall i | 0 <= i < 3 :: !Usable(env.lib, schema, replies[i]))
          || (exists i :: FirstUsable(env.lib, schema, replies, i) && env.lib.strip(replies[i].value) == ""))
  }

  lemma UsableIff(lib: Library, schema: string, reply: Option<string>)
    ensures Usable(lib, schema, reply) <==> Passes(lib, schema, reply)
  {
    hide ValidText, Accepts;
    if reply.Some? {
      AcceptsIff(lib, lib.strip(reply.value), schema);
    }
  }

  lemma PublishedComesOut(env: Env, job: Job, replies: seq<Option<string>>)
    requires |replies| == 3
    ensures ComesOut(env, job.outputSchema, replies, Published(env, job, replies))
  {
    hide Usable, Passes;
    var schema := job.outputSchema;
    forall i | 0 <= i < 3 ensures Usable(env.lib, schema, replies[i]) <==> Passes(env.lib, schema, replies[i]) {
      UsableIff(env.lib, schema, replies[i]);
    }
    ThreeTries(env.lib, schema, replies);
  }

  /** The search for a passing reply, attempt by attempt. */
  lemma ThreeTries(lib: Library, schema: string, replies: seq<Option<string>>)
    requires |replies| == 3
    ensures FirstPassing(lib, schema, replies)
            == if Passes(lib, schema, replies[0]) then Some(lib.strip(replies[0].value))
               else if Passes(lib, schema, replies[1]) then Some(lib.strip(replies[1].value))
               else if Passes(lib, schema, replies[2]) then Some(lib.strip(replies[2].value))
               else None
  {
    hide ValidText;
    assert replies[1..][1..] == replies[2..] && replies[2..][1..] == [];
    assert FirstPassing(lib, schema, replies[2..]) == if Passes(lib, schema, replies[2]) then Some(lib.strip(replies[2].value)) else None;
  }

  // ----- the worker's locked steps -----

  /** What a worker carries out of its snapshot: the registry's template filled with the inputs in join order. */
  lemma SnapshotLaw(env: Env, sv: Server, t: nat, suffix: string, now: int, inputs: seq<string>)
    requires Inv(env, sv) && t in sv.workers && sv.workers[t].point == Started
    requires var id := sv.workers[t].session;
             && id in sv.sessions && |inputs| == |sv.sessions[id].participants|
             && forall u | u in sv.sessions[id].participants ::
                  var p := sv.sessions[id].participants[u]; p.joinIndex < |inputs| && inputs[p.joinIndex] == p.inputJson
    ensures var s := sv.sessions[sv.workers[t].session];
            var sv' := WorkerStep(env, sv, t, Snapshot(suffix), now).0;
            && s.policy.policyClass in env.registry
            && var def := env.registry[s.policy.policyClass];
               sv' == sv.(workers := sv.workers[t :=
                            if s.phase == Calculating
                            then sv.workers[t].(point := Holding,
                                                job := Some(Job(Render(def.promptTemplate, Decimal(|inputs|), Blocks(1, inputs, suffix)),
                                                                def.outputSchema, suffix)))
                            else sv.workers[t].(point := Leaving)])
  {
    hide Inv, RecordOk, Render, Blocks, Decimal, OrderedInputs;
    var id := sv.workers[t].session;
    var s := sv.sessions[id];
    RecordAndName(env, sv, id);
    RecordParts(env, s);
    InputsInOrder(s, inputs);
    assert sv.sessions[id := s] == sv.sessions;
  }

  lemma RecordParts(env: Env, s: Session)
    requires RecordOk(env, s)
    ensures RosterOk(s) && PolicyOk(env, s)
  {
    hide RosterOk, PolicyOk, InputOk, PhaseOk, ResultOk;
  }

  lemma InputsInOrder(s: Session, inputs: seq<string>)
    requires RosterOk(s) && |inputs| == |s.participants|
    requires forall u | u in s.participants ::
               s.participants[u].joinIndex < |inputs| && inputs[s.participants[u].joinIndex] == s.participants[u].inputJson
    ensures OrderedInputs(s) == inputs
  {
    forall i | 0 <= i < |inputs| ensures OrderedInputs(s)[i] == inputs[i] {
      assert s.tokens[i] in s.participants && s.participants[s.tokens[i]].joinIndex == i;
    }
  }

  /** A commit closes a session that still waits with what came out of the attempts, or aborts it when nothing did. */
  lemma CommitLaw(env: Env, sv: Server, t: nat, now: int, text: Option<string>)
    requires Inv(env, sv) && t in sv.workers && sv.workers[t].point == Ready && sv.workers[t].session in sv.sessions
    requires var s := sv.sessions[sv.workers[t].session];
             && s.policy.policyClass in env.registry && |sv.workers[t].replies| == 3
             && ComesOut(env, env.registry[s.policy.policyClass].outputSchema, sv.workers[t].replies, text)
    ensures var id := sv.workers[t].session;
            var s := sv.sessions[id];
            WorkerStep(env, sv, t, Commit, now).0
            == With(sv, id, if s.phase != Calculating then s
                            else if text.Some? then s.(phase := Closed, resultJson := text.value, enteredAt := now)
                            else s.(phase := Aborted, error := LlmGenerationFailed, enteredAt := now))
               .(workers := sv.workers[t := sv.workers[t].(point := Leaving)])
  {
    hide Inv, RecordOk, Published, ComesOut, JobOf;
    var w := sv.workers[t];
    var s := sv.sessions[w.session];
    CarriedJob(env, sv, t);
    PublishedComesOut(env, w.job.value, w.replies);
    OneComesOut(env, w.job.value.outputSchema, w.replies, text, Published(env, w.job.value, w.replies));
    assert sv.sessions[w.session := s] == sv.sessions;
  }

  /** Only one text can come out. */
  lemma OneComesOut(env: Env, schema: string, replies: seq<Option<string>>, a: Option<string>, b: Option<string>)
    requires |replies| == 3 && ComesOut(env, schema, replies, a) && ComesOut(env, schema, replies, b)
    ensures a == b
  {
    hide Usable;
    if a.Some? {
      var i := if Usable(env.lib, schema, replies[0]) then 0 else if Usable(env.lib, schema, replies[1]) then 1 else 2;
      assert FirstUsable(env.lib, schema, replies, i);
    }
  }

  lemma CarriedJob(env: Env, sv: Server, t: nat)
    requires Inv(env, sv) && t in sv.workers && sv.workers[t].point == Ready && sv.workers[t].session in sv.sessions
    ensures var s := sv.sessions[sv.workers[t].session];
            && sv.workers[t].job.Some? && s.policy.policyClass in env.registry
            && sv.workers[t].job.value.outputSchema == env.registry[s.policy.policyClass].outputSchema
  {
    hide IndexesOk, RecordOk, Published;
    assert WorkerOk(env, sv, sv.workers[t]);
    RecordAndName(env, sv, sv.workers[t].session);
    RecordParts(env, sv.sessions[sv.workers[t].session]);
  }

  // ----- the whole path -----

  /**
   A worker whose session waits for it delivers: started, fed, asked three times and
   committed, it leaves the session CLOSED with the first usable reply, or ABORTED when
   there is none, and touches nothing else of the record. The submitter is answered
   CALCULATING with nothing missing.
   */
  lemma WorkerDelivers(env: Env, sv: Server, t: nat, suffix: string, replies: seq<Option<string>>, text: Option<string>,
                       a: int, b: int, c: int, d: int)
    requires Inv(env, sv) && t in sv.workers && sv.workers[t].point == Pending && |replies| == 3
    requires var id := sv.workers[t].session;
             && id in sv.sessions && sv.sessions[id].phase == Calculating
             && sv.sessions[id].policy.policyClass in env.registry
             && ComesOut(env, env.registry[sv.sessions[id].policy.policyClass].outputSchema, replies, text)
    ensures WorkerStep(env, sv, t, SpawnOk, a).1 == Submitted(Calculating, 0)
    ensures var id := sv.workers[t].session;
            var s := sv.sessions[id];
            var started := WorkerStep(env, sv, t, SpawnOk, a).0;
            var fed := WorkerStep(env, started, t, Snapshot(suffix), b).0;
            var asked := WorkerStep(env, fed, t, Infer(replies), c).0;
            var done := WorkerStep(env, asked, t, Commit, d).0;
            && done.sessions == sv.sessions[id :=
                 if text.Some? then s.(phase := Closed, resultJson := text.value, enteredAt := d)
                 else s.(phase := Aborted, error := LlmGenerationFailed, enteredAt := d)]
            && done.active == sv.active
  {
    hide Inv, ComesOut, JobOf, Published, CommitRecord;
    var id := sv.workers[t].session;
    var started := WorkerStep(env, sv, t, SpawnOk, a).0;
    assert started.sessions == sv.sessions;
    var fed := WorkerStep(env, started, t, Snapshot(suffix), b).0;
    assert fed.sessions == sv.sessions && fed.workers[t].point == Holding;
    var asked := WorkerStep(env, fed, t, Infer(replies), c).0;
    assert asked.sessions == sv.sessions && asked.workers[t].point == Ready && asked.workers[t].replies == replies;
    WorkerStepKeeps(env, sv, t, SpawnOk, a);
    WorkerStepKeeps(env, started, t, Snapshot(suffix), b);
    WorkerStepKeeps(env, fed, t, Infer(replies), c);
    CommitLaw(env, asked, t, d, text);
  }
}
