/** What every session record satisfies in every reachable state, and how a record may change. */
module SessionInvariant {
  import opened Wrappers
  import opened Records
  import opened SessionRules
  import opened Server

  // ----- one state -----

  /** `tokens` lists the participants in join order. */
  predicate RosterOk(s: Session) {
    && |s.participants| == |s.tokens|
    && (forall i | 0 <= i < |s.tokens| ::
          s.tokens[i] in s.participants && s.participants[s.tokens[i]].joinIndex == i)
    && (forall t | t in s.participants ::
          && s.participants[t].token == t
          && s.participants[t].joinIndex < |s.tokens|
          && s.tokens[s.participants[t].joinIndex] == t)
  }

  predicate PhaseOpen(s: Session) { NoneSubmitted(s) && !(Full(s) && AllAccepted(s)) }

  predicate PhaseSealed(s: Session) { Full(s) && AllAccepted(s) && !AllSubmitted(s) }

  predicate PhaseComplete(s: Session) { Full(s) && AllAccepted(s) && AllSubmitted(s) }

  /** The record died, or is, in the part of its life where all inputs are in. */
  predicate Complete(s: Session) {
    match s.phase
    case Open => false
    case Sealed => false
    case Calculating => true
    case Closed => true
    case Aborted => s.error == LlmGenerationFailed || s.error == Unspecified
  }

  predicate PhaseOk(s: Session) {
    && (s.phase == Open || (s.phase == Aborted && s.error == JoinTimeout) ==> PhaseOpen(s))
    && (s.phase == Sealed || (s.phase == Aborted && s.error == InputTimeout) ==> PhaseSealed(s))
    && (Complete(s) ==> PhaseComplete(s))
  }

  predicate PolicyOk(env: Env, s: Session) {
    && 2 <= s.policy.expected <= MAX_PARTICIPANTS
    && 0 < s.policy.timeoutSeconds <= MAX_TIMEOUT_SECONDS
    && s.timeout == s.policy.timeoutSeconds * SECOND
    && s.policy.policyClass in env.registry
    && s.policyDef == env.registry[s.policy.policyClass]
    && SchemasParse(env.lib, s.policyDef)
    && s.policy.inputSchema == s.policyDef.inputSchema
    && s.policy.outputSchema == s.policyDef.outputSchema
  }

  /** A stored input is some value's canonical text and is accepted by the registry's own schema. */
  ghost predicate InputOk(env: Env, def: PolicyDefinition, p: Participant) {
    if p.submitted then
      && (exists value :: p.inputJson == env.lib.dump(value))
      && (def.inputSchema != "" ==> ValidText(env.lib, p.inputJson, def.inputSchema))
    else p.inputJson == ""
  }

  predicate ResultOk(env: Env, s: Session) {
    if s.phase == Closed then
      s.resultJson != "" && (s.policyDef.outputSchema != "" ==> ValidText(env.lib, s.resultJson, s.policyDef.outputSchema))
    else s.resultJson == ""
  }

  /** Everything but the phase, the error and the result. */
  ghost predicate ShapeOk(env: Env, s: Session) {
    && RosterOk(s)
    && 1 <= |s.tokens| <= s.policy.expected
    && s.participants[s.tokens[0]].accepted
    && (forall nonce | nonce in s.nonceToToken :: nonce != "" && s.nonceToToken[nonce] in s.participants)
    && PolicyOk(env, s)
    && (forall t | t in s.participants :: InputOk(env, s.policyDef, s.participants[t]))
  }

  ghost predicate RecordOk(env: Env, s: Session) {
    && ShapeOk(env, s)
    && PhaseOk(s)
    && (s.phase != Aborted ==> s.error == Unspecified)
    && ResultOk(env, s)
  }

  // ----- two states -----

  /** Forward moves of the session's life, any number of them. */
  predicate Forward(p: Phase, q: Phase) {
    || p == q
    || (p == Open && q == Sealed)
    || (p == Open && q == Calculating)
    || (p == Open && q == Closed)
    || (p == Sealed && (q == Calculating || q == Closed))
    || (p == Calculating && q == Closed)
    || (p != Closed && q == Aborted)
  }

  /** A single move of the state diagram, or none. */
  predicate Edge(p: Phase, q: Phase) {
    || p == q
    || (p == Open && q == Sealed)
    || (p == Sealed && q == Calculating)
    || (p == Calculating && q == Closed)
    || (p in {Open, Sealed, Calculating} && q == Aborted)
  }

  predicate ParticipantGrows(p: Participant, q: Participant) {
    && p.token == q.token && p.joinIndex == q.joinIndex
    && (p.accepted ==> q.accepted)
    && (p.submitted ==> q.submitted && p.inputJson == q.inputJson)
  }

  /** How `later` may differ from `s`, over any number of steps. */
  predicate Evolves(s: Session, later: Session) {
    && s.id == later.id && s.policy == later.policy && s.policyDef == later.policyDef
    && s.timeout == later.timeout && s.invitation == later.invitation && s.creatorNonce == later.creatorNonce
    && s.tokens <= later.tokens
    && (forall t | t in s.participants ::
          t in later.participants && ParticipantGrows(s.participants[t], later.participants[t]))
    && (forall nonce | nonce in s.nonceToToken ::
          nonce in later.nonceToToken && later.nonceToToken[nonce] == s.nonceToToken[nonce])
    && Forward(s.phase, later.phase)
    && (s.phase == Closed ==> later == s)
    && (s.phase == Aborted || Complete(s) ==> later.participants == s.participants && later.tokens == s.tokens)
    && (Complete(s) ==> Complete(later))
  }

  lemma EvolvesTransitive(a: Session, b: Session, c: Session)
    requires Evolves(a, b) && Evolves(b, c)
    ensures Evolves(a, c)
  {
    assert forall t | t in a.participants :: t in b.participants;
  }

  // ----- every operation keeps the record invariant -----

  /** The shape of a record does not depend on its phase, error, result and entry time. */
  lemma ShapeIgnoresPhase(env: Env, s: Session, s': Session)
    requires ShapeOk(env, s)
    requires s' == s.(phase := s'.phase, error := s'.error, resultJson := s'.resultJson, enteredAt := s'.enteredAt)
    ensures ShapeOk(env, s')
  {
    hide InputOk;
  }

  lemma EnforceKeeps(env: Env, s: Session, now: int)
    requires RecordOk(env, s)
    ensures RecordOk(env, Enforce(env.options, s, now))
    ensures Evolves(s, Enforce(env.options, s, now))
    ensures Edge(s.phase, Enforce(env.options, s, now).phase)
  {
    hide ShapeOk, ValidText;
    ShapeIgnoresPhase(env, s, Enforce(env.options, s, now));
  }

  /** A timeout changes only the phase, the error and the entry time. */
  lemma EnforceKeepsNames(options: Options, s: Session, now: int)
    ensures var e := Enforce(options, s, now);
            && e.id == s.id && e.tokens == s.tokens && e.invitation == s.invitation && e.creatorNonce == s.creatorNonce
            && e.participants == s.participants && e.policy == s.policy && e.policyDef == s.policyDef
  {
  }

  lemma NewKeeps(env: Env, policy: SessionPolicy, nonce: string, mint: Mint, now: int)
    requires policy.policyClass in env.registry
    requires 2 <= policy.expected <= MAX_PARTICIPANTS && policy.timeoutSeconds <= MAX_TIMEOUT_SECONDS
    requires SchemasParse(env.lib, env.registry[policy.policyClass])
    ensures RecordOk(env, NewSession(env.registry[policy.policyClass], policy, nonce,
                                     mint.id, mint.creator, mint.invitation, now))
  {
  }

  lemma AddKeeps(env: Env, s: Session, nonce: string, token: string)
    requires RecordOk(env, s) && s.phase == Open && |s.participants| < s.policy.expected
    requires token !in s.participants
    requires nonce == "" || nonce !in s.nonceToToken
    ensures RecordOk(env, AddParticipant(s, nonce, token))
    ensures Evolves(s, AddParticipant(s, nonce, token))
  {
    hide RosterOk, PolicyOk, InputOk, Evolves;
    var s' := AddParticipant(s, nonce, token);
    AddRoster(s, nonce, token);
    AddEvolves(s, nonce, token);
    assert !s'.participants[token].accepted;
    assert InputOk(env, s.policyDef, s'.participants[token]) by { NothingSubmitted(env, s.policyDef, s'.participants[token]); }
    assert s'.tokens[0] == s.tokens[0];
    assert PolicyOk(env, s') by { SamePolicy(env, s, s'); }
    FirstTokenListed(s);
  }

  lemma AddEvolves(s: Session, nonce: string, token: string)
    requires s.phase == Open && token !in s.participants && (nonce == "" || nonce !in s.nonceToToken)
    ensures Evolves(s, AddParticipant(s, nonce, token))
  {
  }

  lemma SamePolicy(env: Env, s: Session, s': Session)
    requires PolicyOk(env, s) && s'.policy == s.policy && s'.policyDef == s.policyDef && s'.timeout == s.timeout
    ensures PolicyOk(env, s')
  {
  }

  lemma NothingSubmitted(env: Env, def: PolicyDefinition, p: Participant)
    requires !p.submitted && p.inputJson == ""
    ensures InputOk(env, def, p)
  {
  }

  lemma FirstTokenListed(s: Session)
    requires RosterOk(s) && s.tokens != []
    ensures s.tokens[0] in s.participants
  {
  }

  lemma AddRoster(s: Session, nonce: string, token: string)
    requires RosterOk(s) && token !in s.participants
    ensures RosterOk(AddParticipant(s, nonce, token))
  {
    var s' := AddParticipant(s, nonce, token);
    assert s'.participants[token].joinIndex == |s.tokens|;
    assert forall i | 0 <= i < |s.tokens| :: s'.tokens[i] == s.tokens[i];
  }

  lemma JoinKeeps(env: Env, s: Session, nonce: string, token: string, now: int)
    requires RecordOk(env, s) && token !in s.participants
    ensures var s' := JoinRecord(env, s, nonce, token, now).0;
            RecordOk(env, s') && Evolves(s, s') && Edge(s.phase, s'.phase)
  {
    hide RecordOk;
    EnforceKeeps(env, s, now);
    var e := Enforce(env.options, s, now);
    if e.phase == Open && |e.participants| < e.policy.expected && (nonce == "" || nonce !in e.nonceToToken) {
      AddKeeps(env, e, nonce, token);
    }
  }

  /** One participant of an unfinished session moves on. */
  lemma ParticipantKeeps(env: Env, s: Session, token: string, q: Participant)
    requires ShapeOk(env, s) && token in s.participants
    requires s.phase == Open || s.phase == Sealed
    requires ParticipantGrows(s.participants[token], q) && InputOk(env, s.policyDef, q)
    ensures var s' := s.(participants := s.participants[token := q]);
            ShapeOk(env, s') && Evolves(s, s') && Full(s) == Full(s')
  {
    var s' := s.(participants := s.participants[token := q]);
    ParticipantRoster(s, token, q);
    assert Evolves(s, s');
    assert forall t | t in s'.participants :: InputOk(env, s.policyDef, s'.participants[t]);
  }

  lemma ParticipantRoster(s: Session, token: string, q: Participant)
    requires RosterOk(s) && token in s.participants && ParticipantGrows(s.participants[token], q)
    ensures var s' := s.(participants := s.participants[token := q]);
            && RosterOk(s') && s'.participants.Keys == s.participants.Keys
            && |s'.participants| == |s.participants|
            && forall t | t in s.participants :: ParticipantGrows(s.participants[t], s'.participants[t])
  {
    var s' := s.(participants := s.participants[token := q]);
    assert s'.participants.Keys == s.participants.Keys;
    assert |s'.participants.Keys| == |s.participants.Keys|;
  }

  lemma AcceptKeeps(env: Env, s: Session, token: string, now: int)
    requires RecordOk(env, s) && token in s.participants
    ensures var s' := AcceptRecord(env, s, token, now).0;
            RecordOk(env, s') && Evolves(s, s') && Edge(s.phase, s'.phase)
  {
    hide RecordOk;
    EnforceKeeps(env, s, now);
    var e := Enforce(env.options, s, now);
    if !e.participants[token].accepted && e.phase == Open {
      AcceptStores(env, s, token, now);
    }
  }

  lemma AcceptedInput(env: Env, s: Session, token: string)
    requires ShapeOk(env, s) && token in s.participants
    ensures InputOk(env, s.policyDef, s.participants[token].(accepted := true))
  {
    hide RosterOk, PolicyOk;
    assert InputOk(env, s.policyDef, s.participants[token]);
  }

  /** A first acceptance. */
  lemma AcceptStores(env: Env, s: Session, token: string, now: int)
    requires RecordOk(env, s) && s.phase == Open && token in s.participants
    ensures var marked := MarkAccepted(s, token);
            var s' := if Full(marked) && AllAccepted(marked) then marked.(phase := Sealed, enteredAt := now) else marked;
            RecordOk(env, s') && Evolves(s, s')
  {
    hide InputOk, ShapeOk, Evolves;
    AcceptedInput(env, s, token);
    ParticipantKeeps(env, s, token, s.participants[token].(accepted := true));
    ShapeIgnoresPhase(env, MarkAccepted(s, token), MarkAccepted(s, token).(phase := Sealed, enteredAt := now));
    AcceptPhase(s, token, now);
    EvolvesThenEnters(s, MarkAccepted(s, token), Sealed, now);
  }

  lemma AcceptPhase(s: Session, token: string, now: int)
    requires s.phase == Open && PhaseOk(s) && token in s.participants
    ensures var marked := MarkAccepted(s, token);
            if Full(marked) && AllAccepted(marked) then PhaseSealed(marked) else PhaseOpen(marked)
  {
    var marked := MarkAccepted(s, token);
    assert !marked.participants[token].submitted;
  }

  lemma EvolvesThenEnters(s: Session, marked: Session, phase: Phase, now: int)
    requires Evolves(s, marked) && marked.phase == s.phase && Forward(s.phase, phase)
    requires !Complete(s) && !Terminal(s)
    ensures Evolves(s, marked.(phase := phase, enteredAt := now))
  {
  }

  lemma SubsetOfSameSize<T>(a: set<T>, b: set<T>)
    requires a <= b
    ensures |a| <= |b|
    ensures |a| == |b| <==> a == b
  {
    assert b == a + (b - a);
  }

  /** No input is missing exactly when the counter says so. */
  lemma RemainingIff(s: Session)
    requires Full(s)
    ensures RemainingInputs(s) >= 0
    ensures RemainingInputs(s) == 0 <==> AllSubmitted(s)
  {
    SubsetOfSameSize(SubmittedTokens(s), s.participants.Keys);
    assert AllSubmitted(s) <==> SubmittedTokens(s) == s.participants.Keys;
  }

  lemma CanonicalKeeps(env: Env, s: Session, payload: string, p: Participant)
    requires RecordOk(env, s)
    requires Canonical(env.lib, s, payload).Some?
    ensures InputOk(env, s.policyDef, p.(inputJson := Canonical(env.lib, s, payload).value, submitted := true))
  {
    hide RosterOk, PhaseOk, ResultOk, ValidText;
    assert Canonical(env.lib, s, payload).value == env.lib.dump(env.lib.parse(payload).value);
  }

  /** A first payload that is accepted. */
  lemma SubmitStores(env: Env, s: Session, token: string, text: string, now: int)
    requires RecordOk(env, s) && s.phase == Sealed && token in s.participants
    requires !s.participants[token].submitted
    requires InputOk(env, s.policyDef, s.participants[token].(inputJson := text, submitted := true))
    ensures var marked := MarkSubmitted(s, token, text);
            var s' := if RemainingInputs(marked) == 0 then marked.(phase := Calculating, enteredAt := now) else marked;
            RecordOk(env, s') && Evolves(s, s')
  {
    hide InputOk, ShapeOk, Evolves;
    ParticipantKeeps(env, s, token, s.participants[token].(inputJson := text, submitted := true));
    var marked := MarkSubmitted(s, token, text);
    ShapeIgnoresPhase(env, marked, marked.(phase := Calculating, enteredAt := now));
    SubmitPhase(s, token, text);
    EvolvesThenEnters(s, marked, Calculating, now);
  }

  lemma SubmitKeeps(env: Env, s: Session, token: string, payload: string, now: int)
    requires RecordOk(env, s) && token in s.participants
    ensures var s' := SubmitRecord(env, s, token, payload, now).0;
            RecordOk(env, s') && Evolves(s, s') && Edge(s.phase, s'.phase)
  {
    hide RecordOk;
    EnforceKeeps(env, s, now);
    var e := Enforce(env.options, s, now);
    if !e.participants[token].submitted && e.phase == Sealed && Canonical(env.lib, e, payload).Some? {
      CanonicalKeeps(env, s, payload, s.participants[token]);
      SubmitStores(env, s, token, Canonical(env.lib, s, payload).value, now);
    }
  }

  /** A worker is dispatched exactly when the session starts calculating. */
  lemma DispatchIff(env: Env, s: Session, token: string, payload: string, now: int)
    requires token in s.participants
    ensures var (s', reply) := SubmitRecord(env, s, token, payload, now);
            && (reply == Dispatched <==> s.phase == Sealed && s'.phase == Calculating)
            && (reply != Dispatched ==> s'.phase == s.phase || s' == Enforce(env.options, s, now))
  {
  }

  lemma SubmitPhase(s: Session, token: string, text: string)
    requires s.phase == Sealed && PhaseOk(s) && token in s.participants
    ensures var marked := MarkSubmitted(s, token, text);
            if RemainingInputs(marked) == 0 then PhaseComplete(marked) else PhaseSealed(marked)
  {
    var marked := MarkSubmitted(s, token, text);
    assert marked.participants.Keys == s.participants.Keys;
    RemainingIff(marked);
  }

  lemma {:induction false} FirstPassingPasses(lib: Library, schema: string, replies: seq<Option<string>>)
    requires FirstPassing(lib, schema, replies).Some?
    ensures exists i | 0 <= i < |replies| ::
              && Passes(lib, schema, replies[i])
              && FirstPassing(lib, schema, replies) == Some(lib.strip(replies[i].value))
              && forall j | 0 <= j < i :: !Passes(lib, schema, replies[j])
  {
    if Passes(lib, schema, replies[0]) {
      assert 0 <= 0 < |replies|;
    } else {
      FirstPassingPasses(lib, schema, replies[1..]);
      var i :| 0 <= i < |replies[1..]|
               && Passes(lib, schema, replies[1..][i])
               && FirstPassing(lib, schema, replies[1..]) == Some(lib.strip(replies[1..][i].value))
               && forall j | 0 <= j < i :: !Passes(lib, schema, replies[1..][j]);
      assert replies[i + 1] == replies[1..][i];
      forall j | 0 <= j < i + 1 ensures !Passes(lib, schema, replies[j]) {
        if j > 0 { assert replies[j] == replies[1..][j - 1]; }
      }
    }
  }

  lemma CommitKeeps(env: Env, s: Session, job: Job, replies: seq<Option<string>>, now: int)
    requires RecordOk(env, s) && job.outputSchema == OutputSchemaOf(s)
    ensures var s' := CommitRecord(s, Published(env, job, replies), now);
            RecordOk(env, s') && Evolves(s, s') && Edge(s.phase, s'.phase)
  {
    var text := Published(env, job, replies);
    if text.Some? {
      FirstPassingPasses(env.lib, job.outputSchema, replies);
    }
  }

  lemma SpawnFailKeeps(env: Env, s: Session)
    requires RecordOk(env, s) && Complete(s) && s.phase != Closed
    ensures RecordOk(env, SpawnFailRecord(s)) && Evolves(s, SpawnFailRecord(s))
    ensures Edge(s.phase, SpawnFailRecord(s).phase)
  {
  }
}
