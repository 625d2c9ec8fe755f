/** The guarantees of every state a server started empty can reach. */
module Guarantees {
  import opened Wrappers
  import opened Records
  import opened SessionRules
  import opened Server
  import opened SessionInvariant
  import opened ServerInvariant
  import opened Sweeping
  import opened Runs
  import opened Isolation
  import Prompt
  import Rendering

  ghost predicate Reachable(env: Env, sv: Server) {
    exists run: seq<Event> :: Valid(env, EMPTY, run) && After(env, EMPTY, run) == sv
  }

  lemma ReachableInv(env: Env, sv: Server)
    requires Reachable(env, sv)
    ensures Inv(env, sv)
  {
    var run: seq<Event> :| Valid(env, EMPTY, run) && After(env, EMPTY, run) == sv;
    EmptyOk(env);
    RunKeeps(env, EMPTY, run);
  }

  // ----- phases -----

  /** The phase, and for an aborted session the error code, fixes what has been received. */
  lemma PhaseInvariant(env: Env, sv: Server, id: string)
    requires Reachable(env, sv) && id in sv.sessions
    ensures var s := sv.sessions[id];
            var sealedUp := |s.participants| == s.policy.expected && forall t | t in s.participants :: s.participants[t].accepted;
            var allIn := forall t | t in s.participants :: s.participants[t].submitted;
            var noneIn := forall t | t in s.participants :: !s.participants[t].submitted;
            match s.phase
            case Open => noneIn && !sealedUp
            case Sealed => sealedUp && !allIn
            case Calculating => sealedUp && allIn
            case Closed => sealedUp && allIn
            case Aborted =>
              match s.error
              case JoinTimeout => noneIn && !sealedUp
              case InputTimeout => sealedUp && !allIn
              case LlmGenerationFailed => sealedUp && allIn
              case Unspecified => sealedUp && allIn
  {
    hide Reachable, IndexesOk, WorkersOk, RosterOk, PolicyOk, InputOk, ResultOk;
    ReachableInv(env, sv);
    assert RecordOk(env, sv.sessions[id]);
  }

  /** Progress counters agree with the phase: a status poll never contradicts it. */
  lemma CountersFitPhase(env: Env, sv: Server, id: string)
    requires Reachable(env, sv) && id in sv.sessions
    ensures var s := sv.sessions[id];
            && (s.phase == Sealed ==> 0 < RemainingInputs(s) <= s.policy.expected && |AcceptedTokens(s)| == s.policy.expected)
            && (s.phase == Calculating || s.phase == Closed ==> RemainingInputs(s) == 0)
            && (s.phase == Open ==> |SubmittedTokens(s)| == 0)
  {
    hide Reachable;
    PhaseInvariant(env, sv, id);
    var s := sv.sessions[id];
    if s.phase == Open { assert SubmittedTokens(s) == {}; }
    if s.phase == Sealed || s.phase == Calculating || s.phase == Closed {
      RemainingIff(s);
      assert AcceptedTokens(s) == s.participants.Keys;
    }
  }

  // ----- indexes -----

  /** The three indexes are exactly the inverses of what the live records hold. */
  lemma IndexCoherence(env: Env, sv: Server, key: string, id: string)
    requires Reachable(env, sv)
    ensures Get(sv.invitations, key) == Some(id) <==> id in sv.sessions && sv.sessions[id].invitation == key
    ensures Get(sv.participants, key) == Some(id) <==> id in sv.sessions && key in sv.sessions[id].participants
    ensures Get(sv.creatorNonces, key) == Some(id)
            <==> id in sv.sessions && key != "" && sv.sessions[id].creatorNonce == key
  {
    hide Reachable, RecordOk, WorkersOk, NamesOk;
    ReachableInv(env, sv);
    if id in sv.sessions {
      assert Maps(sv.invitations, sv.sessions[id].invitation, id);
      assert key in sv.sessions[id].participants ==> Maps(sv.participants, key, id);
    }
  }

  /** `tokens` is the roster in join order, without repetition. */
  lemma RosterInJoinOrder(env: Env, sv: Server, id: string, i: nat)
    requires Reachable(env, sv) && id in sv.sessions && i < |sv.sessions[id].tokens|
    ensures var s := sv.sessions[id];
            && s.tokens[i] in s.participants && s.participants[s.tokens[i]].joinIndex == i
            && (forall t | t in s.participants && s.participants[t].joinIndex == i :: t == s.tokens[i])
            && (i == 0 ==> s.participants[s.tokens[i]].accepted)
  {
    hide Reachable, IndexesOk, WorkersOk, PhaseOk, PolicyOk, InputOk, ResultOk;
    ReachableInv(env, sv);
    assert RecordOk(env, sv.sessions[id]);
  }

  ghost function TotalParticipants(sessions: map<string, Session>): nat
    decreases |sessions|
  {
    if sessions == map[] then 0
    else
      var id :| id in sessions;
      |sessions[id].participants| + (RemoveShrinks(sessions, id); TotalParticipants(sessions - {id}))
  }

  lemma RemoveShrinks(sessions: map<string, Session>, id: string)
    requires id in sessions
    ensures |sessions - {id}| == |sessions| - 1
  {
    assert (sessions - {id}).Keys == sessions.Keys - {id};
  }

  /** An index that inverts the rosters has one entry per participant. */
  lemma {:induction false} IndexSize(sessions: map<string, Session>, index: map<string, string>)
    requires Inverts(sessions, index)
    ensures |index| == TotalParticipants(sessions)
    decreases |sessions|
  {
    if sessions == map[] {
      assert index.Keys == {};
    } else {
      var id :| id in sessions && TotalParticipants(sessions)
                == |sessions[id].participants| + TotalParticipants(sessions - {id});
      RemoveShrinks(sessions, id);
      InvertsRest(sessions, index, id);
      SplitSize(index, sessions[id].participants.Keys);
      IndexSize(sessions - {id}, index - sessions[id].participants.Keys);
    }
  }

  predicate Inverts(sessions: map<string, Session>, index: map<string, string>) {
    && (forall t | t in index :: index[t] in sessions && t in sessions[index[t]].participants)
    && (forall id, t | id in sessions && t in sessions[id].participants :: Maps(index, t, id))
  }

  lemma InvertsRest(sessions: map<string, Session>, index: map<string, string>, id: string)
    requires Inverts(sessions, index) && id in sessions
    ensures sessions[id].participants.Keys <= index.Keys
    ensures Inverts(sessions - {id}, index - sessions[id].participants.Keys)
  {
    forall t | t in sessions[id].participants ensures t in index {
      assert Maps(index, t, id);
    }
  }

  lemma SplitSize(index: map<string, string>, own: set<string>)
    requires own <= index.Keys
    ensures |index| == |own| + |index - own|
  {
    assert index.Keys == own + (index - own).Keys;
  }

  lemma {:induction false} TotalIsBounded(sessions: map<string, Session>)
    requires forall id | id in sessions :: |sessions[id].participants| <= MAX_PARTICIPANTS
    ensures TotalParticipants(sessions) <= MAX_PARTICIPANTS * |sessions|
    decreases |sessions|
  {
    if sessions == map[] {
    } else {
      var id :| id in sessions && TotalParticipants(sessions)
                == |sessions[id].participants| + TotalParticipants(sessions - {id});
      RemoveShrinks(sessions, id);
      TotalIsBounded(sessions - {id});
    }
  }

  /** One index entry per participant, and both tables within the configured capacity. */
  lemma Capacity(env: Env, sv: Server)
    requires Reachable(env, sv) && env.options.maxSessions >= 0
    ensures |sv.sessions| <= env.options.maxSessions
    ensures |sv.participants| == TotalParticipants(sv.sessions) <= MAX_PARTICIPANTS * env.options.maxSessions
  {
    hide Reachable, WorkersOk, PhaseOk, InputOk, ResultOk, TotalParticipants;
    ReachableInv(env, sv);
    IndexSize(sv.sessions, sv.participants);
    forall id | id in sv.sessions ensures |sv.sessions[id].participants| <= MAX_PARTICIPANTS {
      assert RecordOk(env, sv.sessions[id]);
    }
    TotalIsBounded(sv.sessions);
  }

  // ----- workers -----

  /** The counter is the number of threads not yet gone; a calculating session has one, nobody ever has two. */
  lemma WorkerAccounting(env: Env, sv: Server)
    requires Reachable(env, sv)
    ensures sv.active == |set t | t in sv.workers && sv.workers[t].point != Exited|
    ensures forall t, u | t in sv.workers && u in sv.workers && sv.workers[t].session == sv.workers[u].session :: t == u
    ensures forall id | id in sv.sessions && sv.sessions[id].phase == Calculating ::
              exists t :: t in sv.workers && sv.workers[t].session == id && Unfinished(sv.workers[t])
  {
    hide Reachable, RecordOk, IndexesOk;
    ReachableInv(env, sv);
    assert Live(sv.workers) == set t | t in sv.workers && sv.workers[t].point != Exited;
    forall id | id in sv.sessions && sv.sessions[id].phase == Calculating
      ensures exists t :: t in sv.workers && sv.workers[t].session == id && Unfinished(sv.workers[t])
    {
      assert id in Owners(sv.workers);
      var t :| t in sv.workers && sv.workers[t].session == id;
      assert WorkerOk(env, sv, sv.workers[t]);
    }
  }

  /** When the destructor's wait ends no worker step is possible; while it waits, some worker step is. */
  lemma ShutdownIsSafe(env: Env, sv: Server)
    requires Reachable(env, sv)
    ensures sv.active >= 0
    ensures sv.active == 0 <==> forall t, a | t in sv.workers :: !Enabled(sv.workers[t], a)
  {
    hide Reachable, Inv;
    ReachableInv(env, sv);
    IdleIff(env, sv);
  }

  lemma IdleIff(env: Env, sv: Server)
    requires Inv(env, sv)
    ensures sv.active == |Live(sv.workers)|
    ensures sv.active == 0 <==> forall t, a | t in sv.workers :: !Enabled(sv.workers[t], a)
  {
    hide RecordOk, IndexesOk, FitsRecord;
    if sv.active == 0 {
      assert forall t | t in sv.workers :: t !in Live(sv.workers);
    } else {
      var t :| t in Live(sv.workers);
      assert WorkerOk(env, sv, sv.workers[t]);
      SomeActionEnabled(sv.workers[t]);
    }
  }

  lemma SomeActionEnabled(w: Worker)
    requires LocalsOk(w) && w.point != Exited
    ensures exists a :: Enabled(w, a)
  {
    match w.point
    case Pending => assert Enabled(w, SpawnOk);
    case Started => assert Enabled(w, Snapshot(""));
    case Holding => assert Enabled(w, Infer([None, None, None]));
    case Ready => assert Enabled(w, Commit);
    case Leaving => assert Enabled(w, Exit);
  }

  /**
   Snapshot consistency: for as long as its record exists, what a worker carries
   is what the record would still produce with the same suffix.
   */
  lemma SnapshotConsistency(env: Env, sv: Server, t: nat)
    requires Reachable(env, sv) && t in sv.workers
    requires sv.workers[t].job.Some? && sv.workers[t].session in sv.sessions
    ensures var s := sv.sessions[sv.workers[t].session];
            && sv.workers[t].job.value == JobOf(s, sv.workers[t].job.value.suffix)
            && AllSubmitted(s)
  {
    hide Reachable, RecordOk, IndexesOk, JobOf;
    ReachableInv(env, sv);
    assert WorkerOk(env, sv, sv.workers[t]);
    assert PhaseOk(sv.sessions[sv.workers[t].session]) by { RecordPhase(env, sv, sv.workers[t].session); }
  }

  lemma RecordPhase(env: Env, sv: Server, id: string)
    requires Inv(env, sv) && id in sv.sessions
    ensures PhaseOk(sv.sessions[id])
  {
    hide IndexesOk, WorkersOk, ShapeOk, PhaseOk, ResultOk;
    assert RecordOk(env, sv.sessions[id]);
  }

  /** A published result is the first passing reply to the prompt built from exactly the session's final inputs. */
  lemma ResultProvenance(env: Env, sv: Server, id: string)
    requires Reachable(env, sv) && id in sv.sessions && sv.sessions[id].phase == Closed
    ensures exists t, suffix, i: nat ::
              && t in sv.workers && sv.workers[t].session == id && i < MAX_LLM_RETRIES
              && sv.workers[t].job == Some(JobOf(sv.sessions[id], suffix))
              && IsFirstPassing(env.lib, sv.workers[t], i)
              && sv.sessions[id].resultJson == env.lib.strip(sv.workers[t].replies[i].value)
  {
    hide Reachable, RecordOk, IndexesOk, JobOf, FirstPassing;
    ReachableInv(env, sv);
    assert id in Owners(sv.workers);
    var t :| t in sv.workers && sv.workers[t].session == id;
    var w := sv.workers[t];
    assert WorkerOk(env, sv, w);
    FirstPassingPasses(env.lib, w.job.value.outputSchema, w.replies);
    var i :| 0 <= i < |w.replies|
             && Passes(env.lib, w.job.value.outputSchema, w.replies[i])
             && FirstPassing(env.lib, w.job.value.outputSchema, w.replies) == Some(env.lib.strip(w.replies[i].value))
             && forall j | 0 <= j < i :: !Passes(env.lib, w.job.value.outputSchema, w.replies[j]);
    assert IsFirstPassing(env.lib, w, i);
  }

  predicate IsFirstPassing(lib: Library, w: Worker, i: nat) {
    && w.job.Some? && i < |w.replies|
    && Passes(lib, w.job.value.outputSchema, w.replies[i])
    && forall j | 0 <= j < i :: !Passes(lib, w.job.value.outputSchema, w.replies[j])
  }

  // ----- stored data -----

  /** Stored inputs satisfy the registry's own input schema, published results its output schema. */
  lemma StoredDataIsValid(env: Env, sv: Server, id: string)
    requires Reachable(env, sv) && id in sv.sessions
    ensures var s := sv.sessions[id];
            && s.policy.policyClass in env.registry
            && var def := env.registry[s.policy.policyClass];
               && (forall t | t in s.participants && s.participants[t].submitted && def.inputSchema != "" ::
                     ValidText(env.lib, s.participants[t].inputJson, def.inputSchema))
               && (s.phase == Closed ==> s.resultJson != "")
               && (s.phase == Closed && def.outputSchema != "" ==> ValidText(env.lib, s.resultJson, def.outputSchema))
  {
    hide Reachable, IndexesOk, WorkersOk, RosterOk, PhaseOk, ValidText;
    ReachableInv(env, sv);
    assert RecordOk(env, sv.sessions[id]);
    var s := sv.sessions[id];
    forall t | t in s.participants && s.participants[t].submitted && s.policyDef.inputSchema != ""
      ensures ValidText(env.lib, s.participants[t].inputJson, s.policyDef.inputSchema)
    {
      assert InputOk(env, s.policyDef, s.participants[t]);
    }
  }

  /**
   The prompt, which is all the model reads, determines what it was built from: two
   workers of live sessions, each with the suffix it drew itself, carry the same prompt
   from one template that has a place for the inputs only if the two sessions were given
   the same inputs in the same order, provided canonical JSON text and suffixes are
   single lines.
   */
  lemma PromptDeterminesInputs(env: Env, sv: Server, t: nat, sw: Server, u: nat)
    requires Reachable(env, sv) && t in sv.workers && sv.workers[t].job.Some? && sv.workers[t].session in sv.sessions
    requires Reachable(env, sw) && u in sw.workers && sw.workers[u].job.Some? && sw.workers[u].session in sw.sessions
    requires var s, r := sv.sessions[sv.workers[t].session], sw.sessions[sw.workers[u].session];
             && s.policyDef.promptTemplate == r.policyDef.promptTemplate
             && Prompt.Contains(s.policyDef.promptTemplate, Prompt.INPUTS_SLOT)
    requires forall value :: '\n' !in env.lib.dump(value)
    requires '\n' !in sv.workers[t].job.value.suffix && '\n' !in sw.workers[u].job.value.suffix
    requires sv.workers[t].job.value.prompt == sw.workers[u].job.value.prompt
    ensures OrderedInputs(sv.sessions[sv.workers[t].session]) == OrderedInputs(sw.sessions[sw.workers[u].session])
    ensures sv.workers[t].job.value.suffix == sw.workers[u].job.value.suffix
  {
    hide Reachable, OrderedInputs, Prompt.Render, Prompt.Blocks, Prompt.Contains, AllSubmitted;
    var s, r := sv.sessions[sv.workers[t].session], sw.sessions[sw.workers[u].session];
    var mine, yours := sv.workers[t].job.value.suffix, sw.workers[u].job.value.suffix;
    SnapshotConsistency(env, sv, t);
    SnapshotConsistency(env, sw, u);
    InputsAreSingleLine(env, sv, sv.workers[t].session);
    InputsAreSingleLine(env, sw, sw.workers[u].session);
    Prompt.SingleLineInputsAreUnforged(1, OrderedInputs(s), mine);
    Prompt.SingleLineInputsAreUnforged(1, OrderedInputs(r), yours);
    Rendering.PromptInjective(s.policyDef.promptTemplate, OrderedInputs(s), mine, OrderedInputs(r), yours);
  }

  lemma InputsAreSingleLine(env: Env, sv: Server, id: string)
    requires Reachable(env, sv) && id in sv.sessions && forall value :: '\n' !in env.lib.dump(value)
    ensures |OrderedInputs(sv.sessions[id])| == |sv.sessions[id].participants| > 0
    ensures forall i | 0 <= i < |OrderedInputs(sv.sessions[id])| :: '\n' !in OrderedInputs(sv.sessions[id])[i]
  {
    hide Reachable, Inv, RecordOk, ValidText;
    ReachableInv(env, sv);
    var s := sv.sessions[id];
    RecordAndName(env, sv, id);
    InputsOk(env, s);
    forall i | 0 <= i < |OrderedInputs(s)| ensures '\n' !in OrderedInputs(s)[i] {
      var t := s.tokens[i];
      assert t in s.participants && InputOk(env, s.policyDef, s.participants[t]);
    }
  }

  lemma InputsOk(env: Env, s: Session)
    requires RecordOk(env, s)
    ensures 0 < |s.participants| == |s.tokens|
    ensures forall t | t in s.tokens :: t in s.participants
    ensures forall t | t in s.participants :: InputOk(env, s.policyDef, s.participants[t])
  {
    hide InputOk, PhaseOk, PolicyOk, ResultOk;
  }

  // ----- names and deadlines -----

  /** The tokens handed out by a creation open the session that was created. */
  lemma CreatedTokensWork(env: Env, sv: Server, policy: SessionPolicy, nonce: string, mint: Mint, now: int)
    requires Inv(env, sv) && Fresh(sv, Create(policy, nonce, mint))
    requires CreateStep(env, sv, policy, nonce, mint, now).1.Created?
    ensures var (sv', reply) := CreateStep(env, sv, policy, nonce, mint, now);
            && Invited(sv', reply.invitation).Some?
            && Authenticate(sv', reply.token) == Invited(sv', reply.invitation)
            && sv'.sessions[Invited(sv', reply.invitation).value].phase == reply.phase
  {
    hide Inv, RecordOk, Sweep, SchemasParse;
    var (sv', reply) := CreateStep(env, sv, policy, nonce, mint, now);
    CreateStepKeeps(env, sv, policy, nonce, mint, now);
    var swept := Sweep(env.options, sv, now);
    var id := if nonce != "" && nonce in swept.creatorNonces && swept.creatorNonces[nonce] in swept.sessions
              then swept.creatorNonces[nonce] else mint.id;
    assert id in sv'.sessions && sv'.sessions[id].invitation == reply.invitation;
    FirstTokenIsCreator(env, sv', id);
    InvitedIff(env, sv', reply.invitation, id);
    AuthenticateIff(env, sv', reply.token, id);
  }

  lemma FirstTokenIsCreator(env: Env, sv: Server, id: string)
    requires Inv(env, sv) && id in sv.sessions
    ensures var s := sv.sessions[id]; s.tokens != [] && s.tokens[0] in s.participants
  {
    hide IndexesOk, WorkersOk, PhaseOk, PolicyOk, InputOk, ResultOk;
    assert RecordOk(env, sv.sessions[id]);
  }

  /** The token handed out by a join opens the session of the invitation. */
  lemma JoinedTokenWorks(env: Env, sv: Server, invitation: string, nonce: string, newToken: string, now: int)
    requires Inv(env, sv) && newToken !in sv.minted
    requires JoinStep(env, sv, invitation, nonce, newToken, now).1.Joined?
    ensures var (sv', reply) := JoinStep(env, sv, invitation, nonce, newToken, now);
            Invited(sv', invitation).Some? && Authenticate(sv', reply.token) == Invited(sv', invitation)
  {
    hide Inv, RecordOk, JoinRecord;
    var (sv', reply) := JoinStep(env, sv, invitation, nonce, newToken, now);
    var id := Invited(sv, invitation).value;
    JoinStepKeeps(env, sv, invitation, nonce, newToken, now);
    InvitedIff(env, sv, invitation, id);
    RecordAndName(env, sv, id);
    JoinerIsListed(env, sv.sessions[id], nonce, newToken, now);
    InvitedIff(env, sv', invitation, id);
    AuthenticateIff(env, sv', reply.token, id);
  }

  lemma JoinerIsListed(env: Env, s: Session, nonce: string, newToken: string, now: int)
    requires RecordOk(env, s) && JoinRecord(env, s, nonce, newToken, now).1.Joined?
    ensures var (s', reply) := JoinRecord(env, s, nonce, newToken, now);
            s'.invitation == s.invitation && reply.token in s'.participants
  {
    hide RosterOk, PhaseOk, PolicyOk, InputOk, ResultOk;
  }

  /**
   Right after any request made with its names, and after any sweep, a session that
   is still running is within the deadline of its phase. The one exception a negative
   calculating cap allows is the very submission that starts the calculation.
   */
  lemma AccessEnforcesDeadlines(env: Env, sv: Server, l: Label, now: int, id: string)
    requires Reachable(env, sv) && Fresh(sv, l) && id in sv.sessions
    requires l.Create? || (Addresses(ViewOf(sv, id), l) && !l.Work?)
    ensures l.Create? || id in Apply(env, sv, l, now).0.sessions
    ensures id in Apply(env, sv, l, now).0.sessions ==>
              var s := Apply(env, sv, l, now).0.sessions[id];
              var age := now - s.enteredAt;
              && (s.phase == Open || s.phase == Sealed ==>
                    age <= 600 * SECOND && age <= s.policy.timeoutSeconds * SECOND && s.policy.timeoutSeconds <= 86400)
              && (s.phase == Calculating ==>
                    age <= env.options.maxCalculatingSeconds * SECOND || (l.Submit? && age == 0))
  {
    hide Reachable, Inv, RecordOk, Apply, Fresh, LocalNext;
    ReachableInv(env, sv);
    RecordAndName(env, sv, id);
    StepIsLocal(env, sv, l, now, id);
    LocalDeadline(env, ViewOf(sv, id), l, now);
    DeadlinesAreShort(env, sv.sessions[id]);
  }

  lemma DeadlinesAreShort(env: Env, s: Session)
    requires RecordOk(env, s)
    ensures 0 < s.timeout == s.policy.timeoutSeconds * SECOND && s.policy.timeoutSeconds <= 86400
  {
    hide RosterOk, PhaseOk, InputOk, ResultOk;
  }

  lemma LocalDeadline(env: Env, v: View, l: Label, now: int)
    requires v.session.Some? && (l.Create? || (Addresses(v, l) && !l.Work?))
    ensures var s' := LocalNext(env, v, l, now).session;
            && (l.Create? || s'.Some?)
            && (s'.Some? ==>
                  && s'.value.timeout == v.session.value.timeout && s'.value.policy == v.session.value.policy
                  && (Overdue(env.options, s'.value, now) ==>
                        s'.value.enteredAt == now
                        && (s'.value.timeout < 0 || (s'.value.phase == Calculating && l.Submit?))))
  {
    hide Swept, RetryProblem, Canonical, RemainingInputs, Full, AllAccepted;
  }

  /**
   Refused joins: which invitations are live is hidden from a caller who is turned
   away, except from one whose nonce is not a UUID.
   */
  lemma RefusedJoinsLookAlike(env: Env, sv: Server, invitation: string, token: string, now: int,
                              sw: Server, other: string, token': string, now': int, nonce: string)
    requires JoinStep(env, sv, invitation, nonce, token, now).1.Failed?
    requires JoinStep(env, sw, other, nonce, token', now').1.Failed?
    ensures JoinStep(env, sv, invitation, nonce, token, now).1 == JoinStep(env, sw, other, nonce, token', now').1
            <==> || nonce == "" || env.lib.isUuidV4(nonce)
                 || (Invited(sv, invitation).Some? <==> Invited(sw, other).Some?)
  {
    hide Enforce, AddParticipant;
  }

  /** The input that tells them apart: on one server, a malformed nonce with a live and with an unknown invitation. */
  lemma MalformedNonceReveals(env: Env, sv: Server, live: string, unknown: string, nonce: string, token: string, now: int)
    requires Invited(sv, live).Some? && Invited(sv, unknown).None?
    requires nonce != "" && !env.lib.isUuidV4(nonce)
    ensures JoinStep(env, sv, live, nonce, token, now).1 == Failed(InvalidArgument)
    ensures JoinStep(env, sv, unknown, nonce, token, now).1 == Failed(PermissionDenied)
  {
    hide Enforce;
  }
}
