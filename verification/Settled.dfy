/**
 What can still happen to a session that has settled: nothing, except that the
 failure to create its worker thread, reported late, rewrites its error code.
 */
module Settled {
  import opened Wrappers
  import opened JsonValues
  import opened Records
  import opened SessionRules
  import opened Server
  import opened SessionInvariant
  import opened ServerInvariant
  import opened Sweeping
  import opened Runs
  import opened Isolation

  predicate HasPending(workers: map<nat, Worker>, id: string) {
    exists t :: t in workers && workers[t].session == id && workers[t].point == Pending
  }

  /** The step reports that the session's own worker thread could not be created. */
  predicate FailedSpawn(sv: Server, l: Label, id: string) {
    && l.Work? && l.action == SpawnFail
    && l.thread in sv.workers && sv.workers[l.thread].session == id && sv.workers[l.thread].point == Pending
  }

  /** Such a report comes somewhere in the run. */
  predicate SpawnFails(env: Env, sv: Server, id: string, run: seq<Event>)
    decreases |run|
  {
    run != [] && (FailedSpawn(sv, run[0].step, id) || SpawnFails(env, Next(env, sv, run[0]), id, run[1..]))
  }

  // ----- one step -----

  lemma LocalSettled(env: Env, v: View, l: Label, now: int)
    requires v.session.Some? && Terminal(v.session.value)
    ensures var s' := LocalNext(env, v, l, now).session;
            var late := Addresses(v, l) && l.Work? && l.action == SpawnFail;
            s'.None? || s'.value == if late then SpawnFailRecord(v.session.value) else v.session.value
  {
    hide JobOf, Published;
  }

  lemma PendingIsAborted(env: Env, sv: Server, id: string, t: nat)
    requires Inv(env, sv) && id in sv.sessions && Terminal(sv.sessions[id])
    requires t in sv.workers && sv.workers[t].session == id && sv.workers[t].point == Pending
    ensures sv.sessions[id].phase == Aborted && Complete(sv.sessions[id])
  {
    hide RecordOk, IndexesOk;
    assert WorkerOk(env, sv, sv.workers[t]);
  }

  /** One step on a settled record that survives it, whatever the step is. */
  lemma SettledStep(env: Env, sv: Server, l: Label, now: int, id: string)
    requires Inv(env, sv) && Fresh(sv, l) && id in sv.sessions && Terminal(sv.sessions[id])
    requires id in Apply(env, sv, l, now).0.sessions
    ensures Apply(env, sv, l, now).0.sessions[id]
            == if FailedSpawn(sv, l, id) then sv.sessions[id].(error := Unspecified) else sv.sessions[id]
  {
    hide Inv, RecordOk, Apply, Fresh, LocalNext;
    RecordAndName(env, sv, id);
    StepIsLocal(env, sv, l, now, id);
    LocalSettled(env, ViewOf(sv, id), l, now);
    if FailedSpawn(sv, l, id) {
      PendingIsAborted(env, sv, id, l.thread);
    }
  }

  /** The entry time of a record is that of its last change of phase, unless that change was a failed spawn. */
  lemma EntryTime(env: Env, sv: Server, l: Label, now: int, id: string)
    requires Inv(env, sv) && Fresh(sv, l) && id in sv.sessions && id in Apply(env, sv, l, now).0.sessions
    ensures var s, s' := sv.sessions[id], Apply(env, sv, l, now).0.sessions[id];
            s'.enteredAt == if s'.phase != s.phase && !FailedSpawn(sv, l, id) then now else s.enteredAt
  {
    hide Inv, RecordOk, Apply, Fresh, LocalNext;
    RecordAndName(env, sv, id);
    StepIsLocal(env, sv, l, now, id);
    LocalEntryTime(env, ViewOf(sv, id), l, now);
  }

  lemma LocalEntryTime(env: Env, v: View, l: Label, now: int)
    requires v.session.Some? && LocalNext(env, v, l, now).session.Some?
    ensures var s, s' := v.session.value, LocalNext(env, v, l, now).session.value;
            var failed := Addresses(v, l) && l.Work? && l.action == SpawnFail;
            s'.enteredAt == if s'.phase != s.phase && !failed then now else s.enteredAt
  {
    hide JobOf, Published, RetryProblem, Canonical, RemainingInputs, Full, AllAccepted, EffectiveTimeout;
  }

  // ----- whole runs -----

  /** A settled record that survives a run is the same, but for the error code when a failed spawn is reported late. */
  lemma {:induction false} SettledRun(env: Env, sv: Server, run: seq<Event>, id: string)
    requires Inv(env, sv) && Valid(env, sv, run)
    requires id in sv.sessions && Terminal(sv.sessions[id]) && id in After(env, sv, run).sessions
    ensures After(env, sv, run).sessions[id]
            == if SpawnFails(env, sv, id, run) then sv.sessions[id].(error := Unspecified) else sv.sessions[id]
    decreases |run|
  {
    hide Inv, Apply, Fresh, FailedSpawn;
    if run == [] {
    } else {
      var next := Next(env, sv, run[0]);
      StepKeeps(env, sv, run[0].step, run[0].now);
      RecordAndName(env, sv, id);
      StepTokens(env, sv, run[0].step, run[0].now, id);
      if id in next.sessions {
        SettledStep(env, sv, run[0].step, run[0].now, id);
        SettledRun(env, next, run[1..], id);
      } else {
        RunKeepsAbsent(env, next, run[1..], id);
      }
    }
  }

  /** A settled session without a pending thread never gets one. */
  lemma StepKeepsNonePending(env: Env, sv: Server, l: Label, now: int, id: string)
    requires Inv(env, sv) && Fresh(sv, l) && id in sv.minted && !HasPending(sv.workers, id)
    requires id in sv.sessions ==> Terminal(sv.sessions[id])
    ensures !HasPending(Apply(env, sv, l, now).0.workers, id)
  {
    hide Inv, Apply, Fresh, LocalNext, HasPending, WorkersOf;
    var v := ViewOf(sv, id);
    StepIsLocal(env, sv, l, now, id);
    NonePendingIff(sv.workers, id);
    LocalNonePending(env, v, l, now);
    NonePendingIff(Apply(env, sv, l, now).0.workers, id);
  }

  predicate NonePending(workers: map<nat, Worker>) {
    forall t | t in workers :: workers[t].point != Pending
  }

  lemma NonePendingIff(workers: map<nat, Worker>, id: string)
    ensures NonePending(WorkersOf(workers, id)) <==> !HasPending(workers, id)
  {
    if HasPending(workers, id) {
      var t :| t in workers && workers[t].session == id && workers[t].point == Pending;
      assert t in WorkersOf(workers, id);
    }
  }

  lemma LocalNonePending(env: Env, v: View, l: Label, now: int)
    requires v.session.Some? ==> Terminal(v.session.value)
    requires NonePending(v.workers)
    ensures NonePending(LocalNext(env, v, l, now).workers)
  {
    hide JobOf, Published, CommitRecord, JoinRecord, AcceptRecord;
  }

  lemma {:induction false} NonePendingNeverFails(env: Env, sv: Server, run: seq<Event>, id: string)
    requires Inv(env, sv) && Valid(env, sv, run) && id in sv.minted && !HasPending(sv.workers, id)
    requires id in sv.sessions ==> Terminal(sv.sessions[id])
    ensures !SpawnFails(env, sv, id, run)
    decreases |run|
  {
    hide Inv, Apply, Fresh;
    if run == [] {
    } else {
      var next := Next(env, sv, run[0]);
      StepKeeps(env, sv, run[0].step, run[0].now);
      StepTokens(env, sv, run[0].step, run[0].now, id);
      StepKeepsNonePending(env, sv, run[0].step, run[0].now, id);
      if id !in sv.sessions {
        StepKeepsAbsent(env, sv, run[0].step, run[0].now, id);
      } else if id in next.sessions {
        SettledStep(env, sv, run[0].step, run[0].now, id);
      }
      NonePendingNeverFails(env, next, run[1..], id);
    }
  }

  /** The record is never seen changed, whatever is scheduled, until it is evicted. */
  ghost predicate Frozen(env: Env, sv: Server, id: string)
    requires id in sv.sessions
  {
    forall run: seq<Event> | Valid(env, sv, run) && id in After(env, sv, run).sessions ::
      After(env, sv, run).sessions[id] == sv.sessions[id]
  }

  /** A settled record is frozen if and only if its thread is past creation or its error code is already the fallback. */
  lemma FrozenIff(env: Env, sv: Server, id: string)
    requires Inv(env, sv) && id in sv.sessions && Terminal(sv.sessions[id])
    ensures Frozen(env, sv, id) <==> !HasPending(sv.workers, id) || sv.sessions[id].error == Unspecified
  {
    hide Inv, Apply, Fresh;
    RecordAndName(env, sv, id);
    if !HasPending(sv.workers, id) || sv.sessions[id].error == Unspecified {
      forall run: seq<Event> | Valid(env, sv, run) && id in After(env, sv, run).sessions
        ensures After(env, sv, run).sessions[id] == sv.sessions[id]
      {
        SettledRun(env, sv, run, id);
        if !HasPending(sv.workers, id) { NonePendingNeverFails(env, sv, run, id); }
      }
    } else {
      var t :| t in sv.workers && sv.workers[t].session == id && sv.workers[t].point == Pending;
      LateFailure(env, sv, id, t);
    }
  }

  lemma LateFailure(env: Env, sv: Server, id: string, t: nat)
    requires Inv(env, sv) && id in sv.sessions && Terminal(sv.sessions[id]) && sv.sessions[id].error != Unspecified
    requires t in sv.workers && sv.workers[t].session == id && sv.workers[t].point == Pending
    ensures !Frozen(env, sv, id)
  {
    hide Inv;
    var run := [Event(Work(t, SpawnFail), 0)];
    PendingIsAborted(env, sv, id, t);
    assert Valid(env, sv, run) by { assert run[1..] == []; }
    assert After(env, sv, run) == Next(env, sv, run[0]) by { assert run[1..] == []; }
    assert After(env, sv, run).sessions[id].error == Unspecified;
  }

  /**
   What the participants are told once one of them has been told the session is
   over: the same verdict for ever, an error code at most falling back to
   unspecified, until eviction and then refusal.
   */
  lemma VerdictStands(env: Env, sv: Server, token: string, now: int, run: seq<Event>, other: string, later: int)
    requires Inv(env, sv) && Authenticate(sv, token).Some?
    requires var (mid, answer) := ResultStep(env, sv, token, now);
             && Valid(env, mid, run) && (answer.phase == Closed || answer.phase == Aborted)
             && other in sv.sessions[Authenticate(sv, token).value].participants
    ensures var (mid, answer) := ResultStep(env, sv, token, now);
            var id := Authenticate(sv, token).value;
            var end := After(env, mid, run);
            ResultStep(env, end, other, later).1
            == if id !in end.sessions then Failed(PermissionDenied)
               else if SpawnFails(env, mid, id, run) then answer.(error := Unspecified)
               else answer
  {
    hide Inv, RecordOk, Apply, Fresh, Enforce, EffectiveTimeout, SpawnFails;
    var id := Authenticate(sv, token).value;
    var mid := ResultStep(env, sv, token, now).0;
    var end := After(env, mid, run);
    PollKeeps(env, sv, token, now);
    EnforceKeepsNames(env.options, sv.sessions[id], now);
    TokensNeverMove(env, mid, run, other, id);
    if id in end.sessions {
      SettledRun(env, mid, run, id);
      EnforceSettled(env.options, end.sessions[id], later);
    }
  }

  lemma EnforceSettled(options: Options, s: Session, now: int)
    requires Terminal(s)
    ensures Enforce(options, s, now) == s
  {
  }

  // ----- a run in which it happens -----

  /**
   After any submission that completes the inputs: a poll past the calculating cap
   tells the participants LLM_GENERATION_FAILED, and when the thread then turns out
   not to have been created, they are told an unspecified error, as of the old time.
   */
  lemma LateFailureIsSeen(env: Env, sv: Server, token: string, payload: string, thread: nat, now: int, late: int, any: int)
    requires Inv(env, sv) && thread !in sv.workers && late - now > env.options.maxCalculatingSeconds * SECOND
    requires SubmitStep(env, sv, token, payload, thread, now).1 == Dispatched
    ensures var sent := SubmitStep(env, sv, token, payload, thread, now).0;
            var (timed, first) := ResultStep(env, sent, token, late);
            var broken := WorkerStep(env, timed, thread, SpawnFail, any).0;
            var id := Authenticate(sv, token).value;
            && first == Outcome(Aborted, "", LlmGenerationFailed)
            && ResultStep(env, broken, token, any) == (broken, Outcome(Aborted, "", Unspecified))
            && id in broken.sessions && broken.sessions[id].enteredAt == late
  {
    hide Inv, SubmitRecord;
    var id := Authenticate(sv, token).value;
    DispatchedRecord(env, sv.sessions[id], token, payload, now);
    SubmitKeepsId(env, sv, id, token, payload, now);
    var sent := SubmitStep(env, sv, token, payload, thread, now).0;
    assert Authenticate(sent, token) == Some(id);
    var s := sent.sessions[id];
    var timed := ResultStep(env, sent, token, late).0;
    assert timed == Put(sent, id, s.(phase := Aborted, error := LlmGenerationFailed, enteredAt := late));
    var broken := WorkerStep(env, timed, thread, SpawnFail, any).0;
    assert broken.sessions[id] == s.(phase := Aborted, error := Unspecified, enteredAt := late);
    assert broken.sessions[id := broken.sessions[id]] == broken.sessions;
  }

  lemma DispatchedRecord(env: Env, s: Session, token: string, payload: string, now: int)
    requires token in s.participants && SubmitRecord(env, s, token, payload, now).1 == Dispatched
    ensures var s' := SubmitRecord(env, s, token, payload, now).0;
            s'.phase == Calculating && s'.enteredAt == now && token in s'.participants
  {
    hide Canonical, RemainingInputs;
  }

  // ----- and it is reachable -----

  const POLICY := SessionPolicy("deal", "", "", 2, 300, "", "")
  const DEF := PolicyDefinition("", "", "")
  const ENV := Env(Library(_ => Some(Null), _ => "null", (_, _) => true, _ => true, text => text),
                   map["deal" := DEF], Options(3600, 1800, 1000), true)

  function Party(token: string, accepted: bool, submitted: bool, joinIndex: nat): Participant {
    Participant(token, accepted, if submitted then "null" else "", submitted, joinIndex)
  }

  /** The record of a session of two, which `a` creates and `b` joins. */
  function Pair(phase: Phase, a: bool, b: bool): Session {
    Session("id", phase, POLICY, DEF, map["a" := Party("a", true, a, 0), "b" := Party("b", phase != Open, b, 1)],
            "", Unspecified, 0, 300 * SECOND, "inv", ["a", "b"], map[], "")
  }

  function Alone(s: Session): Server {
    Server(map["id" := s], map["inv" := "id"], map["a" := "id"], map[], 0, {"id", "a", "inv"}, map[])
  }

  function Both(s: Session): Server {
    Server(map["id" := s], map["inv" := "id"], map["a" := "id", "b" := "id"], map[], 0, {"id", "a", "b", "inv"}, map[])
  }

  lemma PairCreated(env: Env, now: int)
    requires CreateProblem(env, EMPTY, POLICY) == None
    ensures POLICY.policyClass in env.registry
    ensures CreateStep(env, EMPTY, POLICY, "", Mint("id", "a", "inv"), now).0
            == Alone(NewSession(env.registry[POLICY.policyClass], POLICY, "", "id", "a", "inv", now))
  {
    hide Sweep, SchemasParse;
    assert Sweep(env.options, EMPTY, now) == EMPTY by { SweepNothing(env.options, now); }
  }

  lemma SweepNothing(options: Options, now: int)
    ensures Sweep(options, EMPTY, now) == EMPTY
  {
    hide Enforce;
  }

  lemma PairJoined(env: Env, s: Session, s': Session)
    requires JoinRecord(env, s, "", "b", 0).0 == s' && s'.id == "id" && |s'.tokens| != |s.tokens|
    ensures JoinStep(env, Alone(s), "inv", "", "b", 0).0 == Both(s')
  {
    hide JoinRecord;
    var sv := Alone(s);
    assert Invited(sv, "inv") == Some("id");
    assert sv.minted + {"b"} == Both(s').minted;
    assert sv.participants["b" := "id"] == Both(s').participants;
    assert sv.sessions["id" := s'] == Both(s').sessions;
  }

  lemma PairAccepted(env: Env, s: Session)
    requires "b" in s.participants
    ensures AcceptStep(env, Both(s), "b", 0).0 == Both(AcceptRecord(env, s, "b", 0).0)
  {
    hide AcceptRecord;
    var s' := AcceptRecord(env, s, "b", 0).0;
    assert Both(s).sessions["id" := s'] == Both(s').sessions;
  }

  lemma PairSubmitted(env: Env, s: Session)
    requires "a" in s.participants && SubmitRecord(env, s, "a", "", 0).1 != Dispatched
    ensures SubmitStep(env, Both(s), "a", "", 0, 0).0 == Both(SubmitRecord(env, s, "a", "", 0).0)
  {
    hide SubmitRecord;
    var s' := SubmitRecord(env, s, "a", "", 0).0;
    assert Both(s).sessions["id" := s'] == Both(s').sessions;
  }

  lemma JoinOfPair()
    ensures JoinRecord(ENV, NewSession(DEF, POLICY, "", "id", "a", "inv", 0), "", "b", 0).0 == Pair(Open, false, false)
  {
    assert |NewSession(DEF, POLICY, "", "id", "a", "inv", 0).participants| == 1;
  }

  lemma AcceptOfPair()
    ensures AcceptRecord(ENV, Pair(Open, false, false), "b", 0).0 == Pair(Sealed, false, false)
  {
    assert MarkAccepted(Pair(Open, false, false), "b").participants.Keys == {"a", "b"};
  }

  lemma FirstInputOfPair()
    ensures SubmitRecord(ENV, Pair(Sealed, false, false), "a", "", 0) == (Pair(Sealed, true, false), Submitted(Sealed, 1))
  {
    var s := Pair(Sealed, false, false);
    assert Canonical(ENV.lib, s, "") == Some("null");
    assert MarkSubmitted(s, "a", "null") == Pair(Sealed, true, false);
    assert SubmittedTokens(MarkSubmitted(s, "a", "null")) == {"a"};
  }

  lemma LastInputOfPair()
    ensures SubmitRecord(ENV, Pair(Sealed, true, false), "b", "", 0) == (Pair(Calculating, true, true), Dispatched)
  {
    var s := Pair(Sealed, true, false);
    assert Canonical(ENV.lib, s, "") == Some("null");
    assert MarkSubmitted(s, "b", "null") == Pair(Sealed, true, true);
    assert SubmittedTokens(MarkSubmitted(s, "b", "null")) == {"a", "b"};
  }

  lemma Leads(env: Env, sv: Server, e: Event, rest: seq<Event>)
    ensures After(env, sv, [e] + rest) == After(env, Next(env, sv, e), rest)
    ensures Valid(env, sv, [e] + rest) <==> Fresh(sv, e.step) && Valid(env, Next(env, sv, e), rest)
  {
    hide Next, Fresh;
    assert ([e] + rest)[1..] == rest;
  }

  const CREATES := Event(Create(POLICY, "", Mint("id", "a", "inv")), 0)
  const JOINS := Event(Join("inv", "", "b"), 0)
  const ACCEPTS := Event(Accept("b"), 0)
  const SUBMITS := Event(Submit("a", "", 0), 0)

  lemma StepCreates()
    ensures Fresh(EMPTY, CREATES.step) && Next(ENV, EMPTY, CREATES) == Alone(NewSession(DEF, POLICY, "", "id", "a", "inv", 0))
  {
    hide CreateStep, NewSession;
    NoProblem();
    PairCreated(ENV, 0);
  }

  lemma NoProblem()
    ensures CreateProblem(ENV, EMPTY, POLICY) == None
  {
  }

  lemma StepJoins()
    ensures var sv := Alone(NewSession(DEF, POLICY, "", "id", "a", "inv", 0));
            Fresh(sv, JOINS.step) && Next(ENV, sv, JOINS) == Both(Pair(Open, false, false))
  {
    hide JoinStep, JoinRecord, NewSession;
    var newborn := NewSession(DEF, POLICY, "", "id", "a", "inv", 0);
    assert newborn.tokens == ["a"] by { NewbornTokens(); }
    JoinOfPair();
    PairJoined(ENV, newborn, Pair(Open, false, false));
  }

  lemma NewbornTokens()
    ensures NewSession(DEF, POLICY, "", "id", "a", "inv", 0).tokens == ["a"]
  {
  }

  lemma StepAccepts()
    ensures var sv := Both(Pair(Open, false, false));
            Fresh(sv, ACCEPTS.step) && Next(ENV, sv, ACCEPTS) == Both(Pair(Sealed, false, false))
  {
    hide AcceptStep, AcceptRecord, Both;
    AcceptOfPair();
    PairAccepted(ENV, Pair(Open, false, false));
  }

  lemma StepSubmits()
    ensures var sv := Both(Pair(Sealed, false, false));
            Fresh(sv, SUBMITS.step) && Next(ENV, sv, SUBMITS) == Both(Pair(Sealed, true, false))
  {
    hide SubmitStep, SubmitRecord;
    FirstInputOfPair();
    PairSubmitted(ENV, Pair(Sealed, false, false));
  }

  lemma StepDispatches()
    ensures SubmitStep(ENV, Both(Pair(Sealed, true, false)), "b", "", 1, 0).1 == Dispatched
  {
    hide SubmitRecord;
    LastInputOfPair();
  }

  /** From the empty server, four requests lead to a state where the last input of a session is dispatched. */
  lemma LateFailureIsReachable()
    ensures var run := [CREATES, JOINS, ACCEPTS, SUBMITS];
            Valid(ENV, EMPTY, run) && SubmitStep(ENV, After(ENV, EMPTY, run), "b", "", 1, 0).1 == Dispatched
  {
    hide Next, Fresh, NewSession, Pair, Alone, Both, SubmitStep;
    StepCreates();
    StepJoins();
    StepAccepts();
    StepSubmits();
    StepDispatches();
    var newborn := NewSession(DEF, POLICY, "", "id", "a", "inv", 0);
    Leads(ENV, Both(Pair(Sealed, false, false)), SUBMITS, []);
    Leads(ENV, Both(Pair(Open, false, false)), ACCEPTS, [SUBMITS]);
    Leads(ENV, Alone(newborn), JOINS, [ACCEPTS, SUBMITS]);
    Leads(ENV, EMPTY, CREATES, [JOINS, ACCEPTS, SUBMITS]);
    assert [CREATES, JOINS, ACCEPTS, SUBMITS] == [CREATES] + [JOINS, ACCEPTS, SUBMITS];
    assert [JOINS, ACCEPTS, SUBMITS] == [JOINS] + [ACCEPTS, SUBMITS];
    assert [ACCEPTS, SUBMITS] == [ACCEPTS] + [SUBMITS] && [SUBMITS] == [SUBMITS] + [];
  }
}
