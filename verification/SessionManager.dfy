/**
 The session manager as an object whose methods update its tables in place. Each
 method is one critical section; it is proved to perform exactly the step of the
 same name on the server value, and therefore to keep the server invariant.
 */
module SessionManagers {
  import opened Wrappers
  import opened Records
  import opened SessionRules
  import opened Server
  import opened SessionInvariant
  import opened ServerInvariant
  import opened Sweeping
  import opened JoinOrder
  import opened Deadlines
  import opened Delivery

  // ----- the sweep, half way -----

  /** The server once the sweep has visited the sessions in `done`, in whatever order. */
  ghost function Visited(options: Options, sv: Server, done: set<string>, now: int): Server {
    var gone := Doomed(options, sv, now) * done;
    sv.(sessions := map id | id in sv.sessions && id !in gone ::
                      if id in done then Enforce(options, sv.sessions[id], now) else sv.sessions[id],
        invitations := sv.invitations - InvitationsOf(sv.sessions, gone),
        participants := sv.participants - TokensOf(sv.sessions, gone),
        creatorNonces := sv.creatorNonces - NoncesOf(sv.sessions, gone))
  }

  lemma VisitedNone(options: Options, sv: Server, now: int)
    ensures Visited(options, sv, {}, now) == sv
  {
    hide Enforce, Swept;
    assert Doomed(options, sv, now) * {} == {};
    assert InvitationsOf(sv.sessions, {}) == {} && TokensOf(sv.sessions, {}) == {} && NoncesOf(sv.sessions, {}) == {};
  }

  lemma VisitedAll(options: Options, sv: Server, now: int)
    ensures Visited(options, sv, sv.sessions.Keys, now) == Sweep(options, sv, now)
  {
    hide Enforce, Swept;
    assert Doomed(options, sv, now) * sv.sessions.Keys == Doomed(options, sv, now);
  }

  /** Visiting one more session: erase it with its index entries, or keep its enforced record. */
  lemma VisitedMore(options: Options, sv: Server, done: set<string>, id: string, now: int)
    requires id in sv.sessions && id !in done
    ensures var before := Visited(options, sv, done, now);
            var s := sv.sessions[id];
            && id in before.sessions && before.sessions[id] == s
            && Visited(options, sv, done + {id}, now)
               == if Swept(options, s, now) then
                    before.(sessions := before.sessions - {id},
                            invitations := before.invitations - {s.invitation},
                            participants := before.participants - Elements(s.tokens),
                            creatorNonces := if s.creatorNonce == "" then before.creatorNonces
                                             else before.creatorNonces - {s.creatorNonce})
                  else before.(sessions := before.sessions[id := Enforce(options, s, now)])
  {
    hide Enforce, Swept, InvitationsOf, TokensOf, NoncesOf;
    var doomed := Doomed(options, sv, now);
    var gone := doomed * done;
    OneMoreGone(sv.sessions, gone, id);
    if Swept(options, sv.sessions[id], now) {
      assert doomed * (done + {id}) == gone + {id};
    } else {
      assert doomed * (done + {id}) == gone;
    }
  }

  lemma OneMoreGone(sessions: map<string, Session>, gone: set<string>, id: string)
    requires id in sessions
    ensures InvitationsOf(sessions, gone + {id}) == InvitationsOf(sessions, gone) + {sessions[id].invitation}
    ensures TokensOf(sessions, gone + {id}) == TokensOf(sessions, gone) + Elements(sessions[id].tokens)
    ensures NoncesOf(sessions, gone + {id})
            == NoncesOf(sessions, gone) + if sessions[id].creatorNonce == "" then {} else {sessions[id].creatorNonce}
  {
  }

  // ----- counting loops -----

  /** The participants with some flag set. */
  ghost function Flagged(participants: map<string, Participant>, flag: Participant -> bool): set<string> {
    set t | t in participants && flag(participants[t])
  }

  lemma FlaggedTokens(s: Session)
    ensures Flagged(s.participants, (p: Participant) => p.accepted) == AcceptedTokens(s)
    ensures Flagged(s.participants, (p: Participant) => p.submitted) == SubmittedTokens(s)
  {
  }

  method CountFlagged(participants: map<string, Participant>, flag: Participant -> bool) returns (n: nat)
    ensures n == |Flagged(participants, flag)|
  {
    n := 0;
    var rest := participants.Keys;
    ghost var seen: set<string> := {};
    while rest != {}
      invariant rest <= participants.Keys
      invariant seen == Flagged(participants, flag) - rest && n == |seen|
    {
      var t :| t in rest;
      if flag(participants[t]) {
        n := n + 1;
        seen := seen + {t};
      }
      rest := rest - {t};
    }
    assert seen == Flagged(participants, flag);
  }

  /** Stops at the first participant who has not accepted. */
  method EveryoneAccepted(s: Session) returns (all: bool)
    ensures all <==> AllAccepted(s)
  {
    all := true;
    var rest := s.participants.Keys;
    while rest != {}
      invariant rest <= s.participants.Keys
      invariant all
      invariant forall t | t in s.participants && t !in rest :: s.participants[t].accepted
    {
      var t :| t in rest;
      if !s.participants[t].accepted {
        return false;
      }
      rest := rest - {t};
    }
  }

  /** What a join does to the record `s`, whose timeout has just been enforced. */
  method ReceiveJoin(env: Env, ghost before: Session, s: Session, nonce: string, newToken: string, now: int)
    returns (s': Session, reply: Reply)
    requires s == Enforce(env.options, before, now)
    ensures (s', reply) == JoinRecord(env, before, nonce, newToken, now)
  {
    hide Enforce;
    if nonce != "" {
      if !env.lib.isUuidV4(nonce) {
        return s, Failed(InvalidArgument);
      }
      if nonce in s.nonceToToken {
        return s, Joined(s.phase, s.policy, s.nonceToToken[nonce]);
      }
    }
    if s.phase != Open {
      return s, Failed(PermissionDenied);
    }
    if |s.participants| >= s.policy.expected {
      return s, Failed(PermissionDenied);
    }
    var joiner := Participant(newToken, false, "", false, |s.participants|);
    s' := s.(participants := s.participants[newToken := joiner]);
    s' := s'.(tokens := s'.tokens + [newToken]);
    if nonce != "" {
      s' := s'.(nonceToToken := s'.nonceToToken[nonce := newToken]);
    }
    return s', Joined(s'.phase, s'.policy, newToken);
  }

  /** What a submission does to the record `s`, whose timeout has just been enforced. */
  method ReceiveInput(env: Env, ghost before: Session, s: Session, token: string, payload: string, now: int)
    returns (s': Session, reply: Reply)
    requires token in before.participants && s == Enforce(env.options, before, now)
    ensures (s', reply) == SubmitRecord(env, before, token, payload, now)
  {
    hide Enforce, ValidText;
    EnforceKeepsNames(env.options, before, now);
    var p := s.participants[token];
    if s.phase != Sealed {
      if p.submitted {
        var problem := RetryProblem(env.lib, payload, p.inputJson);
        if problem.Some? {
          return s, Failed(problem.value);
        }
        return s, Submitted(s.phase, 0);
      }
      return s, Failed(FailedPrecondition);
    }
    if p.submitted {
      var problem := RetryProblem(env.lib, payload, p.inputJson);
      if problem.Some? {
        return s, Failed(problem.value);
      }
      var sofar := CountFlagged(s.participants, (p: Participant) => p.submitted);
      FlaggedTokens(s);
      return s, Submitted(s.phase, s.policy.expected - sofar);
    }
    if |payload| > MAX_INPUT_BYTES {
      return s, Failed(InvalidArgument);
    }
    var parsed := env.lib.parse(payload);
    if parsed.None? {
      return s, Failed(InvalidArgument);
    }
    var schema := s.policy.inputSchema;
    if schema == "" {
      schema := s.policyDef.inputSchema;
    }
    if schema != "" && !ValidText(env.lib, env.lib.dump(parsed.value), schema) {
      return s, Failed(InvalidArgument);
    }
    s' := s.(participants := s.participants[token := p.(inputJson := env.lib.dump(parsed.value), submitted := true)]);
    var count := CountFlagged(s'.participants, (p: Participant) => p.submitted);
    FlaggedTokens(s');
    var remaining := s.policy.expected - count;
    if remaining == 0 {
      return s'.(phase := Calculating, enteredAt := now), Dispatched;
    }
    return s', Submitted(s'.phase, remaining);
  }

  /** The retry loop around the engine; `replies[i]` is what attempt `i` would get. */
  method RunAttempts(env: Env, job: Job, replies: seq<Option<string>>) returns (text: Option<string>)
    requires |replies| == MAX_LLM_RETRIES
    ensures text == Published(env, job, replies)
    ensures ComesOut(env, job.outputSchema, replies, text)
  {
    hide ComesOut;
    PublishedComesOut(env, job, replies);
    var result := "";
    var attempt := 0;
    assert replies[0..] == replies;
    while attempt < MAX_LLM_RETRIES
      invariant 0 <= attempt <= MAX_LLM_RETRIES
      invariant result == ""
      invariant FirstPassing(env.lib, job.outputSchema, replies) == FirstPassing(env.lib, job.outputSchema, replies[attempt..])
    {
      if !env.hasEngine {
        return None;
      }
      var raw := replies[attempt];
      attempt := attempt + 1;
      assert replies[attempt - 1..][1..] == replies[attempt..];
      if raw.None? {
        continue;
      }
      var output := env.lib.strip(raw.value);
      if job.outputSchema != "" && !ValidText(env.lib, output, job.outputSchema) {
        continue;
      }
      result := output;
      break;
    }
    if !env.hasEngine || result == "" {
      text := None;
    } else {
      text := Some(result);
    }
  }

  class SessionManager {
    const env: Env
    var sessions: map<string, Session>
    var invitationToSession: map<string, string>
    var participantToSession: map<string, string>
    var creatorNonceToSession: map<string, string>
    var activeAsyncThreads: int
    ghost var minted: set<string>
    ghost var workers: map<nat, Worker>

    ghost function Model(): Server
      reads this
    {
      Server(sessions, invitationToSession, participantToSession, creatorNonceToSession,
             activeAsyncThreads, minted, workers)
    }

    ghost predicate Consistent()
      reads this
    {
      Inv(env, Model())
    }

    constructor (env: Env)
      ensures this.env == env
      ensures Model() == EMPTY && Consistent()
    {
      this.env := env;
      sessions, invitationToSession, participantToSession, creatorNonceToSession := map[], map[], map[], map[];
      activeAsyncThreads := 0;
      minted, workers := {}, map[];
      new;
      EmptyOk(env);
    }

    method CheckAndEnforceTimeout(id: string, now: int) returns (timedOut: bool)
      requires id in sessions
      modifies this`sessions
      ensures timedOut == PastDeadline(env.options, old(sessions[id]), now)
      ensures sessions == old(sessions)[id := Enforce(env.options, old(sessions[id]), now)]
      ensures sessions == old(sessions)[id := Current(env.options, old(sessions[id]), now)]
    {
      EnforceIsCurrent(env.options, sessions[id], now);
      var s := sessions[id];
      if s.phase == Closed || s.phase == Aborted {
        return false;
      }
      var elapsed := now - s.enteredAt;
      var limit := s.timeout;
      if s.phase == Open {
        limit := Min(limit, MAX_OPEN_SECONDS * SECOND);
      } else if s.phase == Sealed {
        limit := Min(limit, MAX_SEALED_SECONDS * SECOND);
      } else if s.phase == Calculating {
        limit := env.options.maxCalculatingSeconds * SECOND;
      }
      if elapsed > limit {
        var error := Unspecified;
        match s.phase {
          case Open => error := JoinTimeout;
          case Sealed => error := InputTimeout;
          case Calculating => error := LlmGenerationFailed;
          case _ =>
        }
        sessions := sessions[id := s.(phase := Aborted, error := error, enteredAt := now)];
        return true;
      }
      return false;
    }

    method LookUp(token: string) returns (id: Option<string>)
      ensures id == Authenticate(Model(), token)
    {
      if token !in participantToSession {
        return None;
      }
      var found := participantToSession[token];
      if found !in sessions {
        return None;
      }
      if token !in sessions[found].participants {
        return None;
      }
      return Some(found);
    }

    method SweepTerminalSessions(now: int)
      modifies this`sessions, this`invitationToSession, this`participantToSession, this`creatorNonceToSession
      ensures Model() == Sweep(env.options, old(Model()), now)
      ensures forall id | id in sessions :: WorthKeeping(env.options, sessions[id], now)
      ensures sessions == map id | id in old(sessions) && Retained(env.options, old(sessions)[id], now)
                            :: Current(env.options, old(sessions)[id], now)
    {
      hide Sweep, Visited, Enforce, Evictable, WorthKeeping, Current, Retained;
      ghost var start := Model();
      VisitedNone(env.options, start, now);
      var rest := sessions.Keys;
      assert start.sessions.Keys - rest == {};
      while rest != {}
        invariant rest <= start.sessions.Keys
        invariant Model() == Visited(env.options, start, start.sessions.Keys - rest, now)
      {
        var id :| id in rest;
        ghost var done := start.sessions.Keys - rest;
        VisitedMore(env.options, start, done, id, now);
        VisitOne(id, now);
        rest := rest - {id};
        assert start.sessions.Keys - rest == done + {id};
      }
      assert start.sessions.Keys - rest == start.sessions.Keys;
      VisitedAll(env.options, start, now);
      SweepLaw(env, start, now);
      forall id | id in sessions ensures WorthKeeping(env.options, sessions[id], now) {
        SweepSurvivors(env, start, now, id);
      }
    }

    /** One turn of the sweep: enforce the timeout, then erase the record if it has outlived its use. */
    method VisitOne(id: string, now: int)
      requires id in sessions
      modifies this`sessions, this`invitationToSession, this`participantToSession, this`creatorNonceToSession
      ensures var before := old(Model());
              var s := old(sessions[id]);
              Model()
              == if Swept(env.options, s, now) then
                   before.(sessions := before.sessions - {id},
                           invitations := before.invitations - {s.invitation},
                           participants := before.participants - Elements(s.tokens),
                           creatorNonces := if s.creatorNonce == "" then before.creatorNonces
                                            else before.creatorNonces - {s.creatorNonce})
                 else before.(sessions := before.sessions[id := Enforce(env.options, s, now)])
      ensures var s := old(sessions[id]);
              sessions == if Retained(env.options, s, now) then old(sessions)[id := Current(env.options, s, now)]
                          else old(sessions) - {id}
    {
      hide Enforce, Current, Retained;
      ghost var first := sessions[id];
      EnforceKeepsNames(env.options, first, now);
      EnforceIsCurrent(env.options, first, now);
      SweptIff(env.options, first, now);
      var _ := CheckAndEnforceTimeout(id, now);
      var s := sessions[id];
      var erase := false;
      if s.phase == Closed || s.phase == Aborted {
        if s.phase == Aborted && (s.error == JoinTimeout || s.error == InputTimeout) {
          erase := true;
        } else if now - s.enteredAt > env.options.terminalRetentionSeconds * SECOND {
          erase := true;
        }
      }
      if erase {
        invitationToSession := invitationToSession - {s.invitation};
        if s.creatorNonce != "" {
          creatorNonceToSession := creatorNonceToSession - {s.creatorNonce};
        }
        EraseTokens(s.tokens);
        sessions := sessions - {id};
        assert old(sessions)[id := s] - {id} == old(sessions) - {id};
      }
    }

    method EraseTokens(tokens: seq<string>)
      modifies this`participantToSession
      ensures participantToSession == old(participantToSession) - Elements(tokens)
    {
      assert Elements(tokens[..0]) == {};
      for i := 0 to |tokens|
        invariant participantToSession == old(participantToSession) - Elements(tokens[..i])
      {
        ElementsSnoc(tokens, i);
        participantToSession := participantToSession - {tokens[i]};
      }
      assert tokens[..|tokens|] == tokens;
    }

    method CreateSession(policy: SessionPolicy, nonce: string, mint: Mint, now: int) returns (reply: Reply)
      requires Consistent() && Fresh(Model(), Create(policy, nonce, mint))
      modifies this
      ensures (Model(), reply) == CreateStep(env, old(Model()), policy, nonce, mint, now)
      ensures Consistent()
    {
      hide Inv, Sweep;
      ghost var start := Model();
      StepKeeps(env, start, Create(policy, nonce, mint), now);
      SweepTerminalSessions(now);
      if |sessions| >= env.options.maxSessions {
        return Failed(ResourceExhausted);
      }
      if policy.policyClass !in env.registry {
        return Failed(InvalidArgument);
      }
      var def := env.registry[policy.policyClass];
      if policy.expected < 2 {
        return Failed(InvalidArgument);
      }
      if policy.expected > MAX_PARTICIPANTS {
        return Failed(InvalidArgument);
      }
      if policy.timeoutSeconds > MAX_TIMEOUT_SECONDS {
        return Failed(InvalidArgument);
      }
      if def.inputSchema != "" && env.lib.parse(def.inputSchema).None? {
        return Failed(Internal);
      }
      if def.outputSchema != "" && env.lib.parse(def.outputSchema).None? {
        return Failed(Internal);
      }
      if nonce != "" {
        if !env.lib.isUuidV4(nonce) {
          return Failed(InvalidArgument);
        }
        if nonce in creatorNonceToSession {
          var known := creatorNonceToSession[nonce];
          if known in sessions {
            var stored := sessions[known];
            var asked := policy.(inputSchema := stored.policy.inputSchema, outputSchema := stored.policy.outputSchema);
            asked := asked.(timeoutSeconds :=
              if policy.timeoutSeconds > 0 then policy.timeoutSeconds else DEFAULT_TIMEOUT_SECONDS);
            if stored.policy != asked {
              return Failed(InvalidArgument);
            }
            var creator := "";
            if stored.tokens != [] {
              creator := stored.tokens[0];
            }
            return Created(stored.invitation, stored.phase, creator);
          }
        }
      }
      RegisterSession(def, policy, nonce, mint, now);
      return Created(mint.invitation, Open, mint.creator);
    }

    /** Build the new record and enter it in the table and the three indexes. */
    method RegisterSession(def: PolicyDefinition, policy: SessionPolicy, nonce: string, mint: Mint, now: int)
      modifies this
      ensures Model() == Insert(old(Model()), NewSession(def, policy, nonce, mint.id, mint.creator, mint.invitation, now))
    {
      var seconds := if policy.timeoutSeconds > 0 then policy.timeoutSeconds else DEFAULT_TIMEOUT_SECONDS;
      var stored := policy.(inputSchema := def.inputSchema, outputSchema := def.outputSchema);
      stored := stored.(timeoutSeconds := seconds);
      var creator := Participant(mint.creator, true, "", false, 0);
      var s := Session(mint.id, Open, stored, def, map[mint.creator := creator], "", Unspecified, now,
                       seconds * SECOND, mint.invitation, [mint.creator], map[], "");
      sessions := sessions[mint.id := s];
      invitationToSession := invitationToSession[mint.invitation := mint.id];
      participantToSession := participantToSession[mint.creator := mint.id];
      minted := minted + {mint.id, mint.creator, mint.invitation};
      MintedNames(old(minted), mint);
      if nonce != "" {
        sessions := sessions[mint.id := sessions[mint.id].(creatorNonce := nonce)];
        creatorNonceToSession := creatorNonceToSession[nonce := mint.id];
      }
    }

    method JoinSession(invitation: string, nonce: string, newToken: string, now: int) returns (reply: Reply)
      requires Consistent() && newToken !in minted
      modifies this
      ensures (Model(), reply) == JoinStep(env, old(Model()), invitation, nonce, newToken, now)
      ensures Consistent()
    {
      hide Inv, Enforce, JoinRecord;
      StepKeeps(env, Model(), Join(invitation, nonce, newToken), now);
      if invitation !in invitationToSession {
        return Failed(PermissionDenied);
      }
      var id := invitationToSession[invitation];
      if id !in sessions {
        return Failed(PermissionDenied);
      }
      EnforceKeepsNames(env.options, sessions[id], now);
      var _ := CheckAndEnforceTimeout(id, now);
      ghost var before := old(sessions[id]);
      var s, answer := ReceiveJoin(env, before, sessions[id], nonce, newToken, now);
      if |s.tokens| != |sessions[id].tokens| {
        participantToSession := participantToSession[newToken := s.id];
        minted := minted + {newToken};
      }
      sessions := sessions[id := s];
      assert sessions == old(sessions)[id := s];
      return answer;
    }

    method AcceptPolicy(token: string, now: int) returns (reply: Reply)
      requires Consistent()
      modifies this`sessions
      ensures (Model(), reply) == AcceptStep(env, old(Model()), token, now)
      ensures Consistent()
    {
      hide Inv, Enforce;
      StepKeeps(env, Model(), Accept(token), now);
      var auth := LookUp(token);
      if auth.None? {
        return Failed(PermissionDenied);
      }
      var id := auth.value;
      EnforceKeepsNames(env.options, sessions[id], now);
      var _ := CheckAndEnforceTimeout(id, now);
      var s := sessions[id];
      if s.participants[token].accepted {
        return Accepted(s.phase);
      }
      if s.phase != Open {
        return Failed(FailedPrecondition);
      }
      s := s.(participants := s.participants[token := s.participants[token].(accepted := true)]);
      if |s.participants| == s.policy.expected {
        var all := EveryoneAccepted(s);
        if all {
          s := s.(phase := Sealed, enteredAt := now);
        }
      }
      sessions := sessions[id := s];
      assert sessions == old(sessions)[id := s];
      return Accepted(s.phase);
    }

    /** The locked part of a submission; `thread` names the worker it may have to start. */
    method SubmitInput(token: string, payload: string, thread: nat, now: int) returns (reply: Reply)
      requires Consistent() && thread !in workers
      modifies this`sessions, this`activeAsyncThreads, this`workers
      ensures (Model(), reply) == SubmitStep(env, old(Model()), token, payload, thread, now)
      ensures Consistent()
    {
      hide Inv, Enforce, SubmitRecord;
      StepKeeps(env, Model(), Submit(token, payload, thread), now);
      var auth := LookUp(token);
      if auth.None? {
        return Failed(PermissionDenied);
      }
      var id := auth.value;
      EnforceKeepsNames(env.options, sessions[id], now);
      var _ := CheckAndEnforceTimeout(id, now);
      ghost var before := old(sessions[id]);
      var s, answer := ReceiveInput(env, before, sessions[id], token, payload, now);
      sessions := sessions[id := s];
      assert sessions == old(sessions)[id := s];
      if answer == Dispatched {
        activeAsyncThreads := activeAsyncThreads + 1;
        workers := workers[thread := Worker(s.id, Pending, None, [])];
      }
      return answer;
    }

    method GetResult(token: string, now: int) returns (reply: Reply)
      requires Consistent()
      modifies this`sessions
      ensures (Model(), reply) == ResultStep(env, old(Model()), token, now)
      ensures Consistent()
    {
      hide Inv, Enforce;
      StepKeeps(env, Model(), Label.GetResult(token), now);
      var auth := LookUp(token);
      if auth.None? {
        return Failed(PermissionDenied);
      }
      var _ := CheckAndEnforceTimeout(auth.value, now);
      var s := sessions[auth.value];
      var result, error := "", Unspecified;
      if s.phase == Closed {
        result := s.resultJson;
      } else if s.phase == Aborted {
        error := s.error;
      }
      return Outcome(s.phase, result, error);
    }

    method GetSessionStatus(token: string, now: int) returns (reply: Reply)
      requires Consistent()
      modifies this`sessions
      ensures (Model(), reply) == StatusStep(env, old(Model()), token, now)
      ensures Consistent()
    {
      hide Inv, Enforce;
      StepKeeps(env, Model(), GetStatus(token), now);
      var auth := LookUp(token);
      if auth.None? {
        return Failed(PermissionDenied);
      }
      var _ := CheckAndEnforceTimeout(auth.value, now);
      var s := sessions[auth.value];
      var accepted := CountFlagged(s.participants, (p: Participant) => p.accepted);
      var inputs := CountFlagged(s.participants, (p: Participant) => p.submitted);
      FlaggedTokens(s);
      return Progress(s.phase, |s.participants|, accepted, inputs);
    }

    // ----- the worker thread -----

    /** The thread object was created: the submitter is answered. */
    method SpawnSucceeded(ghost thread: nat, ghost now: int) returns (reply: Reply)
      requires Consistent() && thread in workers && workers[thread].point == Pending
      modifies this`workers
      ensures (Model(), reply) == WorkerStep(env, old(Model()), thread, SpawnOk, now)
      ensures Consistent()
    {
      hide Inv;
      StepKeeps(env, Model(), Work(thread, SpawnOk), now);
      OwnSession(thread);
      workers := workers[thread := workers[thread].(point := Started)];
      return Submitted(Calculating, 0);
    }

    /** Writing a record back unchanged is no change. */
    lemma OwnSession(thread: nat)
      requires thread in workers
      ensures var id := workers[thread].session; id in sessions ==> sessions[id := sessions[id]] == sessions
    {
    }

    /** The thread could not be created: give the count back and abort whatever record is there. */
    method SpawnFailed(ghost thread: nat, sessionId: string, ghost now: int) returns (reply: Reply)
      requires Consistent()
      requires thread in workers && workers[thread].point == Pending && workers[thread].session == sessionId
      modifies this`sessions, this`activeAsyncThreads, this`workers
      ensures (Model(), reply) == WorkerStep(env, old(Model()), thread, SpawnFail, now)
      ensures Consistent()
    {
      hide Inv;
      StepKeeps(env, Model(), Work(thread, SpawnFail), now);
      activeAsyncThreads := activeAsyncThreads - 1;
      if sessionId in sessions {
        var s := sessions[sessionId];
        sessions := sessions[sessionId := s.(phase := Aborted, error := Unspecified)];
      }
      workers := workers[thread := workers[thread].(point := Exited)];
      return Failed(Internal);
    }

    /** Step 1, locked: read the inputs of a session that is still calculating. */
    method TakeSnapshot(ghost thread: nat, sessionId: string, suffix: string, ghost now: int) returns (job: Option<Job>)
      requires Consistent()
      requires thread in workers && workers[thread].point == Started && workers[thread].session == sessionId
      modifies this`workers
      ensures Model() == WorkerStep(env, old(Model()), thread, Snapshot(suffix), now).0
      ensures Consistent()
      ensures workers[thread].point == (if job.Some? then Holding else Leaving)
      ensures job.Some? ==> workers[thread].job == job
    {
      hide Inv, JobOf;
      StepKeeps(env, Model(), Work(thread, Snapshot(suffix)), now);
      OwnSession(thread);
      if sessionId !in sessions || sessions[sessionId].phase != Calculating {
        workers := workers[thread := workers[thread].(point := Leaving)];
        return None;
      }
      RosterHolds(sessionId);
      var built := BuildJob(sessions[sessionId], suffix);
      workers := workers[thread := workers[thread].(point := Holding, job := Some(built))];
      return Some(built);
    }

    lemma RosterHolds(id: string)
      requires Consistent() && id in sessions
      ensures RosterOk(sessions[id])
    {
      hide IndexesOk, WorkersOk, RosterOk, PhaseOk, PolicyOk, InputOk, ResultOk;
      assert RecordOk(env, Model().sessions[id]);
    }

    /** Step 2, unlocked: consult the model. */
    method Generate(ghost thread: nat, job: Job, replies: seq<Option<string>>, ghost now: int)
      returns (text: Option<string>)
      requires Consistent() && |replies| == MAX_LLM_RETRIES
      requires thread in workers && workers[thread].point == Holding && workers[thread].job == Some(job)
      modifies this`workers
      ensures Model() == WorkerStep(env, old(Model()), thread, Infer(replies), now).0
      ensures Consistent()
      ensures text == Published(env, job, replies)
      ensures ComesOut(env, job.outputSchema, replies, text)
    {
      hide Inv, Published;
      StepKeeps(env, Model(), Work(thread, Infer(replies)), now);
      OwnSession(thread);
      workers := workers[thread := workers[thread].(point := Ready, replies := replies)];
      text := RunAttempts(env, job, replies);
    }

    /** Step 3, locked: write the result, unless the session has left the calculating phase. */
    method CommitResult(ghost thread: nat, sessionId: string, text: Option<string>, now: int)
      requires Consistent()
      requires thread in workers && workers[thread].point == Ready && workers[thread].session == sessionId
      requires workers[thread].job.Some?
      requires text == Published(env, workers[thread].job.value, workers[thread].replies)
      modifies this`sessions, this`workers
      ensures Model() == WorkerStep(env, old(Model()), thread, Commit, now).0
      ensures Consistent()
    {
      hide Inv, Published;
      StepKeeps(env, Model(), Work(thread, Commit), now);
      OwnSession(thread);
      ghost var w := workers[thread];
      workers := workers[thread := w.(point := Leaving)];
      if sessionId !in sessions {
        return;
      }
      var s := sessions[sessionId];
      if s.phase != Calculating {
        return;
      }
      if text.Some? {
        s := s.(resultJson := text.value, phase := Closed, enteredAt := now);
      } else {
        s := s.(phase := Aborted, error := LlmGenerationFailed, enteredAt := now);
      }
      sessions := sessions[sessionId := s];
    }

    /** The guard object on the worker's stack gives the count back on every exit path. */
    method LeaveWorker(ghost thread: nat, ghost now: int)
      requires Consistent() && thread in workers && workers[thread].point == Leaving
      modifies this`activeAsyncThreads, this`workers
      ensures Model() == WorkerStep(env, old(Model()), thread, Exit, now).0
      ensures Consistent()
    {
      hide Inv;
      StepKeeps(env, Model(), Work(thread, Exit), now);
      OwnSession(thread);
      activeAsyncThreads := activeAsyncThreads - 1;
      workers := workers[thread := workers[thread].(point := Exited)];
    }

    /** The condition the destructor waits for says that every worker is gone. */
    method MayDestroy() returns (yes: bool)
      requires Consistent()
      ensures yes <==> forall t | t in workers :: workers[t].point == Exited
    {
      hide RecordOk, IndexesOk, FitsRecord;
      yes := activeAsyncThreads <= 0;
      assert activeAsyncThreads == |Live(workers)|;
      assert Live(workers) == {} <==> forall t | t in workers :: workers[t].point == Exited by {
        assert forall t | t in workers :: workers[t].point != Exited <==> t in Live(workers);
      }
    }
  }

  lemma MintedNames(minted: set<string>, mint: Mint)
    ensures minted + {mint.id, mint.creator, mint.invitation}
            == minted + {mint.id, mint.invitation} + set t | t in [mint.creator]
  {
  }
}
