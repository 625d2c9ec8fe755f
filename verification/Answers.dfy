/**
 What each request does and answers, said on the fields of the record it finds, with
 the numbers of the protocol written out.
 */
module Answers {
  import opened Wrappers
  import opened Records
  import opened SchemaValidation
  import opened SessionRules
  import opened Server
  import opened SessionInvariant
  import opened ServerInvariant
  import opened Sweeping
  import opened Runs
  import opened Deadlines

  /** The server with one record replaced. */
  function With(sv: Server, id: string, s: Session): Server {
    sv.(sessions := sv.sessions[id := s])
  }

  /** Text and schema are JSON, and the validator accepts the one under the other. */
  predicate Accepts(lib: Library, text: string, schema: string) {
    && lib.parse(text).Some? && lib.parse(schema).Some?
    && ValidateNode(lib.matches, lib.parse(text).value, lib.parse(schema).value) == Ok
  }

  lemma AcceptsIff(lib: Library, text: string, schema: string)
    ensures Accepts(lib, text, schema) <==> ValidText(lib, text, schema)
  {
    hide ValidateNode;
  }

  // ----- strangers -----

  /** The request presents a name that opens no live session. */
  predicate Stranger(sv: Server, l: Label) {
    match l
    case Create(_, _, _) => false
    case Join(invitation, _, _) => Invited(sv, invitation).None?
    case Accept(token) => Authenticate(sv, token).None?
    case Submit(token, _, _) => Authenticate(sv, token).None?
    case GetResult(token) => Authenticate(sv, token).None?
    case GetStatus(token) => Authenticate(sv, token).None?
    case Work(_, _) => false
  }

  /** Such a request changes nothing and is told nothing but that. */
  lemma StrangerLaw(env: Env, sv: Server, l: Label, now: int)
    requires Stranger(sv, l)
    ensures Apply(env, sv, l, now) == (sv, Failed(PermissionDenied))
  {
  }

  // ----- creation -----

  predicate SchemaTextOk(lib: Library, text: string) {
    text == "" || lib.parse(text).Some?
  }

  /** Whether a new session may be made, apart from capacity and nonce; if not, what is answered. */
  function PolicyProblem(env: Env, policy: SessionPolicy): Option<Status> {
    if !(policy.policyClass in env.registry && 2 <= policy.expected <= 100 && policy.timeoutSeconds <= 86400)
    then Some(InvalidArgument)
    else
      var def := env.registry[policy.policyClass];
      if SchemaTextOk(env.lib, def.inputSchema) && SchemaTextOk(env.lib, def.outputSchema) then None else Some(Internal)
  }

  /**
   A creation whose nonce is not claimed sweeps and then either is refused, capacity
   first, or enters one new OPEN session: the creator joined and accepted, the schemas
   are the registry's, and the timeout is the one asked for, or five minutes.
   */
  lemma CreateLaw(env: Env, sv: Server, policy: SessionPolicy, nonce: string, mint: Mint, now: int)
    requires nonce == "" || nonce !in Sweep(env.options, sv, now).creatorNonces
    ensures var swept := Sweep(env.options, sv, now);
            var (sv', reply) := CreateStep(env, sv, policy, nonce, mint, now);
            if |swept.sessions| >= env.options.maxSessions then
              (sv', reply) == (swept, Failed(ResourceExhausted))
            else if PolicyProblem(env, policy).Some? then
              (sv', reply) == (swept, Failed(PolicyProblem(env, policy).value))
            else if nonce != "" && !env.lib.isUuidV4(nonce) then
              (sv', reply) == (swept, Failed(InvalidArgument))
            else
              var seconds := if policy.timeoutSeconds > 0 then policy.timeoutSeconds else 300;
              var def := env.registry[policy.policyClass];
              var stored := SessionPolicy(policy.policyClass, def.inputSchema, def.outputSchema, policy.expected, seconds,
                                          policy.sdpSignature, policy.signatureKeyId);
              var creator := Participant(mint.creator, true, "", false, 0);
              && reply == Created(mint.invitation, Open, mint.creator)
              && sv' == Server(
                          swept.sessions[mint.id := Session(mint.id, Open, stored, def, map[mint.creator := creator], "",
                                                            Unspecified, now, seconds * SECOND, mint.invitation,
                                                            [mint.creator], map[], nonce)],
                          swept.invitations[mint.invitation := mint.id],
                          swept.participants[mint.creator := mint.id],
                          if nonce == "" then swept.creatorNonces else swept.creatorNonces[nonce := mint.id],
                          swept.active, swept.minted + {mint.id, mint.creator, mint.invitation}, swept.workers)
  {
    hide Sweep;
    var swept := Sweep(env.options, sv, now);
    assert swept.minted + {mint.id, mint.invitation} + (set t | t in [mint.creator])
        == swept.minted + {mint.id, mint.creator, mint.invitation};
  }

  // ----- joins -----

  /** A join is granted to a caller who comes back with a known nonce, or while there is room in an OPEN session. */
  lemma JoinLaw(env: Env, sv: Server, invitation: string, nonce: string, newToken: string, now: int, id: string)
    requires Inv(env, sv) && newToken !in sv.minted && Invited(sv, invitation) == Some(id)
    ensures var s := Current(env.options, sv.sessions[id], now);
            var (sv', reply) := JoinStep(env, sv, invitation, nonce, newToken, now);
            var readable := nonce == "" || env.lib.isUuidV4(nonce);
            var known := nonce != "" && nonce in s.nonceToToken;
            var room := s.phase == Open && |s.participants| < s.policy.expected;
            && (reply.Joined? <==> readable && (known || room))
            && (!reply.Joined? ==> sv' == With(sv, id, s) && reply == Failed(if readable then PermissionDenied else InvalidArgument))
            && (readable && known ==> sv' == With(sv, id, s) && reply == Joined(s.phase, s.policy, s.nonceToToken[nonce]))
            && (readable && !known && room ==>
                  var joiner := Participant(newToken, false, "", false, |s.participants|);
                  && reply == Joined(Open, s.policy, newToken)
                  && sv' == With(sv, id, s.(participants := s.participants[newToken := joiner],
                                            tokens := s.tokens + [newToken],
                                            nonceToToken := if nonce == "" then s.nonceToToken
                                                            else s.nonceToToken[nonce := newToken]))
                            .(participants := sv.participants[newToken := id], minted := sv.minted + {newToken}))
  {
    hide Inv, RecordOk, Enforce, Current;
    var s := Current(env.options, sv.sessions[id], now);
    EnforceIsCurrent(env.options, sv.sessions[id], now);
    CurrentKeepsNames(env.options, sv.sessions[id], now);
    InvitedIff(env, sv, invitation, id);
    RecordAndName(env, sv, id);
  }

  lemma CurrentKeepsNames(options: Options, s: Session, now: int)
    ensures var e := Current(options, s, now);
            && e.id == s.id && e.tokens == s.tokens && e.participants == s.participants && e.policy == s.policy
            && e.policyDef == s.policyDef && e.nonceToToken == s.nonceToToken
            && (e.phase == s.phase ==> e == s) && (e.phase != s.phase ==> e.phase == Aborted)
  {
  }

  // ----- acceptances -----

  /** An acceptance counts once, while OPEN; the session is sealed by the last one, when all have joined. */
  lemma AcceptLaw(env: Env, sv: Server, token: string, now: int, id: string)
    requires Inv(env, sv) && Authenticate(sv, token) == Some(id)
    ensures var s := Current(env.options, sv.sessions[id], now);
            var (sv', reply) := AcceptStep(env, sv, token, now);
            && token in s.participants
            && var p := s.participants[token];
               if p.accepted then (sv', reply) == (With(sv, id, s), Accepted(s.phase))
               else if s.phase != Open then (sv', reply) == (With(sv, id, s), Failed(FailedPrecondition))
               else
                 var last := |s.participants| == s.policy.expected
                             && forall t | t in s.participants && t != token :: s.participants[t].accepted;
                 var marked := s.(participants := s.participants[token := p.(accepted := true)]);
                 && reply == Accepted(if last then Sealed else Open)
                 && sv' == With(sv, id, if last then marked.(phase := Sealed, enteredAt := now) else marked)
  {
    hide Inv, Enforce, Current;
    EnforceIsCurrent(env.options, sv.sessions[id], now);
    CurrentKeepsNames(env.options, sv.sessions[id], now);
    var s := Current(env.options, sv.sessions[id], now);
    var marked := MarkAccepted(s, token);
    assert marked.participants.Keys == s.participants.Keys;
    assert |marked.participants| == |s.participants|;
  }

  // ----- submissions -----

  /** Participants other than `token` who have not submitted. */
  function Missing(s: Session, token: string): set<string> {
    set t | t in s.participants && t != token && !s.participants[t].submitted
  }

  /** At most 64 KiB of JSON that, in canonical form, the registry's own schema accepts. */
  predicate GoodPayload(env: Env, s: Session, payload: string) {
    && s.policy.policyClass in env.registry
    && |payload| <= 65536 && env.lib.parse(payload).Some?
    && var schema := env.registry[s.policy.policyClass].inputSchema;
       schema == "" || Accepts(env.lib, env.lib.dump(env.lib.parse(payload).value), schema)
  }

  /** A first payload is stored in canonical form; the reply counts who is missing, and the last one starts the worker. */
  lemma FirstSubmitLaw(env: Env, sv: Server, token: string, payload: string, thread: nat, now: int, id: string)
    requires Inv(env, sv) && Authenticate(sv, token) == Some(id) && !sv.sessions[id].participants[token].submitted
    ensures var s := Current(env.options, sv.sessions[id], now);
            var (sv', reply) := SubmitStep(env, sv, token, payload, thread, now);
            && token in s.participants
            && if s.phase != Sealed then (sv', reply) == (With(sv, id, s), Failed(FailedPrecondition))
               else if !GoodPayload(env, s, payload) then (sv', reply) == (With(sv, id, s), Failed(InvalidArgument))
               else
                 var text := env.lib.dump(env.lib.parse(payload).value);
                 var p := s.participants[token].(inputJson := text, submitted := true);
                 var marked := s.(participants := s.participants[token := p]);
                 if Missing(s, token) != {}
                 then (sv', reply) == (With(sv, id, marked), Submitted(Sealed, |Missing(s, token)|))
                 else
                   && reply == Dispatched
                   && sv' == With(sv, id, marked.(phase := Calculating, enteredAt := now))
                             .(active := sv.active + 1, workers := sv.workers[thread := Worker(id, Pending, None, [])])
  {
    hide Inv, RecordOk, Enforce, Current, ValidText, Accepts, RemainingInputs;
    var before := sv.sessions[id];
    RecordAndName(env, sv, id);
    EnforceIsCurrent(env.options, before, now);
    CurrentKeepsNames(env.options, before, now);
    var s := Current(env.options, before, now);
    if s.phase == Sealed {
      SchemaOfRegistry(env, s, payload);
      if GoodPayload(env, s, payload) {
        RemainingAfter(env, s, token, env.lib.dump(env.lib.parse(payload).value));
      }
    }
  }

  lemma SchemaOfRegistry(env: Env, s: Session, payload: string)
    requires RecordOk(env, s)
    ensures Canonical(env.lib, s, payload)
            == if GoodPayload(env, s, payload) then Some(env.lib.dump(env.lib.parse(payload).value)) else None
  {
    hide RosterOk, PhaseOk, InputOk, ResultOk, ValidText, Accepts;
    if env.lib.parse(payload).Some? {
      AcceptsIff(env.lib, env.lib.dump(env.lib.parse(payload).value), env.registry[s.policy.policyClass].inputSchema);
    }
  }

  lemma RemainingAfter(env: Env, s: Session, token: string, text: string)
    requires RecordOk(env, s) && s.phase == Sealed && token in s.participants
    ensures RemainingInputs(MarkSubmitted(s, token, text)) == |Missing(s, token)|
  {
    hide RosterOk, PolicyOk, InputOk, ResultOk;
    var marked := MarkSubmitted(s, token, text);
    assert marked.participants.Keys == s.participants.Keys;
    assert s.participants.Keys == SubmittedTokens(marked) + Missing(s, token);
  }

  /** How a repeated payload is answered, `stored` being what is there. */
  function RepeatAnswer(lib: Library, s: Session, token: string, payload: string, stored: string): Reply {
    if |payload| > 65536 || lib.parse(payload).None? then Failed(InvalidArgument)
    else if lib.dump(lib.parse(payload).value) != stored then Failed(FailedPrecondition)
    else Submitted(s.phase, if s.phase == Sealed then |Missing(s, token)| else 0)
  }

  /** A repeated payload changes nothing but a deadline; it is checked against what is stored. */
  lemma RepeatSubmitLaw(env: Env, sv: Server, token: string, payload: string, thread: nat, now: int, id: string)
    requires Inv(env, sv) && Authenticate(sv, token) == Some(id) && sv.sessions[id].participants[token].submitted
    ensures var s := Current(env.options, sv.sessions[id], now);
            SubmitStep(env, sv, token, payload, thread, now)
            == (With(sv, id, s), RepeatAnswer(env.lib, s, token, payload, sv.sessions[id].participants[token].inputJson))
  {
    hide Inv, RecordOk, Enforce, Current, RemainingInputs;
    var before := sv.sessions[id];
    RecordAndName(env, sv, id);
    EnforceIsCurrent(env.options, before, now);
    CurrentKeepsNames(env.options, before, now);
    var s := Current(env.options, before, now);
    if s.phase == Sealed {
      RemainingNow(env, s, token);
    }
  }

  lemma RemainingNow(env: Env, s: Session, token: string)
    requires RecordOk(env, s) && s.phase == Sealed && token in s.participants && s.participants[token].submitted
    ensures RemainingInputs(s) == |Missing(s, token)|
  {
    hide RosterOk, PolicyOk, InputOk, ResultOk;
    assert s.participants.Keys == SubmittedTokens(s) + Missing(s, token);
  }
}
