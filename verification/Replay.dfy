/**
 Retries are harmless: a repeated request, however much later and in whatever
 phase, answers from the record and changes the server only as a status poll
 (or, for a creation, a sweep) would.
 */
module Replay {
  import opened Wrappers
  import opened Records
  import opened SessionRules
  import opened Server
  import opened SessionInvariant
  import opened ServerInvariant
  import opened Sweeping
  import opened Runs
  import Guarantees
  import Answers

  /** The state after one step and then a run. */
  function Later(env: Env, sv: Server, first: Event, run: seq<Event>): Server {
    After(env, Next(env, sv, first), run)
  }

  ghost predicate Plays(env: Env, sv: Server, first: Event, run: seq<Event>) {
    Inv(env, sv) && Fresh(sv, first.step) && Valid(env, Next(env, sv, first), run)
  }

  /** A record present right after the first step and at the end has only grown in between. */
  lemma GrowsSince(env: Env, sv: Server, first: Event, run: seq<Event>, id: string)
    requires Plays(env, sv, first, run) && id in Next(env, sv, first).sessions
    ensures Inv(env, Next(env, sv, first)) && Inv(env, Later(env, sv, first, run))
    ensures id in Later(env, sv, first, run).sessions ==>
              Evolves(Next(env, sv, first).sessions[id], Later(env, sv, first, run).sessions[id])
  {
    hide Inv, Apply, Fresh, Evolves;
    StepKeeps(env, sv, first.step, first.now);
    RunKeeps(env, Next(env, sv, first), run);
    if id in Later(env, sv, first, run).sessions {
      RunMovesForward(env, Next(env, sv, first), run, id);
    }
  }

  // ----- joins -----

  /** A successful join is remembered under its nonce. */
  lemma JoinRemembers(env: Env, s: Session, nonce: string, token: string, now: int)
    requires nonce != "" && JoinRecord(env, s, nonce, token, now).1.Joined?
    ensures var (s', reply) := JoinRecord(env, s, nonce, token, now);
            env.lib.isUuidV4(nonce) && nonce in s'.nonceToToken && s'.nonceToToken[nonce] == reply.token
  {
  }

  lemma JoinAgain(env: Env, s: Session, nonce: string, token: string, now: int)
    requires nonce != "" && env.lib.isUuidV4(nonce) && nonce in s.nonceToToken
    ensures var e := Enforce(env.options, s, now);
            JoinRecord(env, s, nonce, token, now) == (e, Joined(e.phase, e.policy, s.nonceToToken[nonce]))
  {
  }

  lemma JoinReplay(env: Env, sv: Server, invitation: string, nonce: string, token: string, now: int,
                   run: seq<Event>, spare: string, later: int)
    requires Plays(env, sv, Event(Join(invitation, nonce, token), now), run)
    requires nonce != "" && JoinStep(env, sv, invitation, nonce, token, now).1.Joined?
    ensures var end := Later(env, sv, Event(Join(invitation, nonce, token), now), run);
            var given := JoinStep(env, sv, invitation, nonce, token, now).1.token;
            var id := Invited(sv, invitation).value;
            JoinStep(env, end, invitation, nonce, spare, later)
            == if id in end.sessions
               then var e := Enforce(env.options, end.sessions[id], later);
                    (Poll(env, end, given, later), Joined(e.phase, e.policy, given))
               else (end, Failed(PermissionDenied))
  {
    hide Inv, RecordOk, JoinRecord, Enforce, Fresh, Evolves;
    var first := Event(Join(invitation, nonce, token), now);
    var id := Invited(sv, invitation).value;
    var mid, end := Next(env, sv, first), Later(env, sv, first, run);
    JoinRemembers(env, sv.sessions[id], nonce, token, now);
    GrowsSince(env, sv, first, run, id);
    InvitedIff(env, sv, invitation, id);
    JoinKeepsInvitation(env, sv, id, nonce, token, now);
    var given := JoinStep(env, sv, invitation, nonce, token, now).1.token;
    NonceOwner(env, mid, id, nonce);
    TokensNeverMove(env, mid, run, given, id);
    if id in end.sessions {
      NonceKept(mid.sessions[id], end.sessions[id], nonce);
      JoinAgain(env, end.sessions[id], nonce, spare, later);
      EnforceKeepsNames(env.options, end.sessions[id], later);
    }
  }

  lemma NonceKept(s: Session, later: Session, nonce: string)
    requires Evolves(s, later) && nonce in s.nonceToToken
    ensures nonce in later.nonceToToken && later.nonceToToken[nonce] == s.nonceToToken[nonce]
  {
  }

  lemma JoinKeepsInvitation(env: Env, sv: Server, id: string, nonce: string, token: string, now: int)
    requires id in sv.sessions
    ensures JoinRecord(env, sv.sessions[id], nonce, token, now).0.invitation == sv.sessions[id].invitation
  {
  }

  lemma NonceOwner(env: Env, sv: Server, id: string, nonce: string)
    requires Inv(env, sv) && id in sv.sessions && nonce in sv.sessions[id].nonceToToken
    ensures sv.sessions[id].nonceToToken[nonce] in sv.sessions[id].participants
  {
    hide IndexesOk, WorkersOk, PhaseOk, PolicyOk, InputOk, ResultOk, RosterOk;
    assert RecordOk(env, sv.sessions[id]);
  }

  // ----- accepts -----

  lemma AcceptRemembers(env: Env, s: Session, token: string, now: int)
    requires token in s.participants && AcceptRecord(env, s, token, now).1.Accepted?
    ensures var s' := AcceptRecord(env, s, token, now).0;
            token in s'.participants && s'.participants[token].accepted
  {
  }

  lemma AcceptAgain(env: Env, s: Session, token: string, now: int)
    requires token in s.participants && s.participants[token].accepted
    ensures var e := Enforce(env.options, s, now); AcceptRecord(env, s, token, now) == (e, Accepted(e.phase))
  {
  }

  lemma AcceptReplay(env: Env, sv: Server, token: string, now: int, run: seq<Event>, later: int)
    requires Plays(env, sv, Event(Accept(token), now), run)
    requires AcceptStep(env, sv, token, now).1.Accepted?
    ensures var end := Later(env, sv, Event(Accept(token), now), run);
            var id := Authenticate(sv, token).value;
            AcceptStep(env, end, token, later)
            == if id in end.sessions
               then (Poll(env, end, token, later), Accepted(Enforce(env.options, end.sessions[id], later).phase))
               else (end, Failed(PermissionDenied))
  {
    hide Inv, RecordOk, AcceptRecord, Enforce, Fresh;
    var first := Event(Accept(token), now);
    var id := Authenticate(sv, token).value;
    var end := Later(env, sv, first, run);
    AuthenticateIff(env, sv, token, id);
    AcceptRemembers(env, sv.sessions[id], token, now);
    GrowsSince(env, sv, first, run, id);
    TokensNeverMove(env, Next(env, sv, first), run, token, id);
    if id in end.sessions {
      AcceptAgain(env, end.sessions[id], token, later);
    }
  }

  // ----- submissions -----

  /** A payload that was taken is stored in canonical form. */
  lemma SubmitRemembers(env: Env, s: Session, token: string, payload: string, now: int)
    requires token in s.participants
    requires var reply := SubmitRecord(env, s, token, payload, now).1; reply.Submitted? || reply.Dispatched?
    ensures env.lib.parse(payload).Some?
    ensures var s' := SubmitRecord(env, s, token, payload, now).0;
            && token in s'.participants && s'.participants[token].submitted
            && s'.participants[token].inputJson == env.lib.dump(env.lib.parse(payload).value)
  {
  }

  lemma SubmitAgain(env: Env, s: Session, token: string, retry: string, now: int)
    requires token in s.participants && s.participants[token].submitted
    ensures var e := Enforce(env.options, s, now);
            SubmitRecord(env, s, token, retry, now)
            == (e, match RetryProblem(env.lib, retry, s.participants[token].inputJson)
                   case Some(status) => Failed(status)
                   case None => Submitted(e.phase, if e.phase == Sealed then RemainingInputs(e) else 0))
  {
  }

  /** Any later payload only polls; it is accepted exactly when its canonical form is the stored one. */
  lemma SubmitReplay(env: Env, sv: Server, token: string, payload: string, thread: nat, now: int,
                     run: seq<Event>, retry: string, spare: nat, later: int)
    requires Plays(env, sv, Event(Submit(token, payload, thread), now), run)
    requires var reply := SubmitStep(env, sv, token, payload, thread, now).1; reply.Submitted? || reply.Dispatched?
    ensures env.lib.parse(payload).Some? && Authenticate(sv, token).Some?
    ensures var end := Later(env, sv, Event(Submit(token, payload, thread), now), run);
            var id := Authenticate(sv, token).value;
            var stored := env.lib.dump(env.lib.parse(payload).value);
            SubmitStep(env, end, token, retry, spare, later)
            == if id !in end.sessions then (end, Failed(PermissionDenied))
               else
                 var e := Enforce(env.options, end.sessions[id], later);
                 (Poll(env, end, token, later),
                  if |retry| > MAX_INPUT_BYTES || env.lib.parse(retry).None? then Failed(InvalidArgument)
                  else if env.lib.dump(env.lib.parse(retry).value) != stored then Failed(FailedPrecondition)
                  else Submitted(e.phase, if e.phase == Sealed then RemainingInputs(e) else 0))
  {
    hide Inv, RecordOk, SubmitStep, Poll, Enforce, Fresh, RemainingInputs;
    var first := Event(Submit(token, payload, thread), now);
    SubmitStepRemembers(env, sv, token, payload, thread, now);
    var id := Authenticate(sv, token).value;
    var end := Later(env, sv, first, run);
    GrowsSince(env, sv, first, run, id);
    TokensNeverMove(env, Next(env, sv, first), run, token, id);
    if id in end.sessions {
      SubmitStepAgain(env, end, token, retry, spare, later);
    } else {
      SubmitRefused(env, end, token, retry, spare, later);
    }
  }

  lemma SubmitRefused(env: Env, sv: Server, token: string, retry: string, spare: nat, now: int)
    requires Authenticate(sv, token).None?
    ensures SubmitStep(env, sv, token, retry, spare, now) == (sv, Failed(PermissionDenied))
  {
  }

  lemma SubmitStepRemembers(env: Env, sv: Server, token: string, payload: string, thread: nat, now: int)
    requires var reply := SubmitStep(env, sv, token, payload, thread, now).1; reply.Submitted? || reply.Dispatched?
    ensures Authenticate(sv, token).Some? && env.lib.parse(payload).Some?
    ensures var id := Authenticate(sv, token).value;
            var sessions := SubmitStep(env, sv, token, payload, thread, now).0.sessions;
            && id in sessions && token in sessions[id].participants && sessions[id].participants[token].submitted
            && sessions[id].participants[token].inputJson == env.lib.dump(env.lib.parse(payload).value)
  {
    hide SubmitRecord;
    SubmitRemembers(env, sv.sessions[Authenticate(sv, token).value], token, payload, now);
  }

  lemma SubmitStepAgain(env: Env, sv: Server, token: string, retry: string, spare: nat, now: int)
    requires Authenticate(sv, token).Some?
    requires sv.sessions[Authenticate(sv, token).value].participants[token].submitted
    ensures var s := sv.sessions[Authenticate(sv, token).value];
            var e := Enforce(env.options, s, now);
            SubmitStep(env, sv, token, retry, spare, now)
            == (Poll(env, sv, token, now),
                if |retry| > MAX_INPUT_BYTES || env.lib.parse(retry).None? then Failed(InvalidArgument)
                else if env.lib.dump(env.lib.parse(retry).value) != s.participants[token].inputJson
                then Failed(FailedPrecondition)
                else Submitted(e.phase, if e.phase == Sealed then RemainingInputs(e) else 0))
  {
    hide SubmitRecord, Enforce, RemainingInputs;
    SubmitAgain(env, sv.sessions[Authenticate(sv, token).value], token, retry, now);
  }

  // ----- creations -----

  /** Not asking for a timeout is asking for five minutes. */
  predicate DefaultTimeout(seconds: int) {
    seconds <= 0 || seconds == 300
  }

  /** Two requests ask for the same session: the same class, size, signature and timeout; the schemas do not matter. */
  predicate SameRequest(p: SessionPolicy, q: SessionPolicy) {
    && p.policyClass == q.policyClass && p.expected == q.expected
    && p.sdpSignature == q.sdpSignature && p.signatureKeyId == q.signatureKeyId
    && (|| p.timeoutSeconds == q.timeoutSeconds
        || (DefaultTimeout(p.timeoutSeconds) && DefaultTimeout(q.timeoutSeconds)))
  }

  /** The record a nonce leads to after a successful creation. */
  lemma CreateRemembers(env: Env, sv: Server, policy: SessionPolicy, nonce: string, mint: Mint, now: int)
    requires nonce != "" && CreateStep(env, sv, policy, nonce, mint, now).1.Created?
    ensures var (sv', reply) := CreateStep(env, sv, policy, nonce, mint, now);
            && env.lib.isUuidV4(nonce)
            && nonce in sv'.creatorNonces && sv'.creatorNonces[nonce] in sv'.sessions
            && var s := sv'.sessions[sv'.creatorNonces[nonce]];
               && s.invitation == reply.invitation
               && reply.token == (if s.tokens == [] then "" else s.tokens[0])
               && s.policy == Normalized(policy, s.policy)
  {
    hide Sweep, SchemasParse;
  }

  lemma NonceIff(env: Env, sv: Server, nonce: string, id: string)
    requires Inv(env, sv) && nonce != ""
    ensures nonce in sv.creatorNonces && sv.creatorNonces[nonce] == id
            <==> id in sv.sessions && sv.sessions[id].creatorNonce == nonce
    ensures nonce in sv.creatorNonces ==> sv.creatorNonces[nonce] in sv.sessions
  {
    hide RecordOk, WorkersOk, NamesOk, TokensOk, InvitationsOk;
    if id in sv.sessions && sv.sessions[id].creatorNonce == nonce {
      assert Maps(sv.creatorNonces, sv.sessions[id].creatorNonce, id);
    }
  }

  /** What a retry that does not match is told: what is wrong with it, or that it does not match. */
  function Mismatch(env: Env, policy: SessionPolicy): Reply {
    var problem := Answers.PolicyProblem(env, policy);
    Failed(if problem.Some? then problem.value else InvalidArgument)
  }

  /** What a second creation answers once its nonce is known. */
  lemma CreateAgain(env: Env, sv: Server, policy: SessionPolicy, nonce: string, mint: Mint, now: int, s: Session)
    requires nonce != "" && env.lib.isUuidV4(nonce)
    requires var swept := Sweep(env.options, sv, now);
             && |swept.sessions| < env.options.maxSessions
             && nonce in swept.creatorNonces && swept.creatorNonces[nonce] in swept.sessions
             && swept.sessions[swept.creatorNonces[nonce]] == s
    requires RecordOk(env, s)
    ensures var (sv', reply) := CreateStep(env, sv, policy, nonce, mint, now);
            && sv' == Sweep(env.options, sv, now)
            && (reply.Created? <==> s.policy == Normalized(policy, s.policy))
            && (reply.Created? ==> reply == Created(s.invitation, s.phase, s.tokens[0]))
            && (!reply.Created? ==> reply == Mismatch(env, policy))
  {
    hide Sweep, RosterOk, PhaseOk, InputOk, ResultOk;
  }

  /** The session a nonce is claimed for. */
  function Claimed(sv: Server, nonce: string): string {
    if nonce in sv.creatorNonces then sv.creatorNonces[nonce] else ""
  }

  /** While the session lives, a retry is answered from it. */
  lemma CreateReplayAlive(env: Env, sv: Server, policy: SessionPolicy, nonce: string, mint: Mint, now: int,
                          run: seq<Event>, again: SessionPolicy, spare: Mint, later: int)
    requires Plays(env, sv, Event(Create(policy, nonce, mint), now), run)
    requires nonce != "" && CreateStep(env, sv, policy, nonce, mint, now).1.Created?
    requires var id := Claimed(CreateStep(env, sv, policy, nonce, mint, now).0, nonce);
             id in Sweep(env.options, Later(env, sv, Event(Create(policy, nonce, mint), now), run), later).sessions
    ensures var (made, answer) := CreateStep(env, sv, policy, nonce, mint, now);
            var swept := Sweep(env.options, Later(env, sv, Event(Create(policy, nonce, mint), now), run), later);
            var (sv', reply) := CreateStep(env, Later(env, sv, Event(Create(policy, nonce, mint), now), run),
                                           again, nonce, spare, later);
            && sv' == swept
            && (reply.Created? <==> |swept.sessions| < env.options.maxSessions && SameRequest(policy, again))
            && (reply.Created? ==> reply == Created(answer.invitation, swept.sessions[Claimed(made, nonce)].phase,
                                                    answer.token))
            && (!reply.Created? ==>
                  reply == if |swept.sessions| >= env.options.maxSessions then Failed(ResourceExhausted) else Mismatch(env, again))
  {
    hide Inv, RecordOk, CreateStep, Enforce, Fresh, Sweep, Mismatch;
    var first := Event(Create(policy, nonce, mint), now);
    CreateRemembers(env, sv, policy, nonce, mint, now);
    var mid, end := Next(env, sv, first), Later(env, sv, first, run);
    var id := mid.creatorNonces[nonce];
    var swept := Sweep(env.options, end, later);
    SweepParts(env.options, end, later);
    GrowsSince(env, sv, first, run, id);
    NonceIff(env, mid, nonce, id);
    NonceIff(env, end, nonce, id);
    SweepKeeps(env, end, later);
    RecordAndName(env, swept, id);
    RecordAndName(env, mid, id);
    EnforceKeepsNames(env.options, end.sessions[id], later);
    NonceIff(env, swept, nonce, id);
    if |swept.sessions| < env.options.maxSessions {
      CreateAgain(env, end, again, nonce, spare, later, swept.sessions[id]);
    } else {
      CreateFull(env, end, again, nonce, spare, later);
    }
    HasCreator(env, mid.sessions[id]);
  }

  /** A creation whose nonce is free is answered like one without a nonce, and claims the nonce. */
  lemma CreateAnew(env: Env, sv: Server, policy: SessionPolicy, nonce: string, mint: Mint, now: int)
    requires nonce != "" && env.lib.isUuidV4(nonce) && nonce !in Sweep(env.options, sv, now).creatorNonces
    ensures var swept := Sweep(env.options, sv, now);
            var (sv', reply) := CreateStep(env, sv, policy, nonce, mint, now);
            && reply == CreateStep(env, sv, policy, "", mint, now).1
            && (reply.Failed? ==> sv' == swept)
            && (!reply.Failed? ==> reply == Created(mint.invitation, Open, mint.creator)
                                   && sv'.creatorNonces == swept.creatorNonces[nonce := mint.id])
  {
    hide Sweep, SchemasParse, NormalTimeout;
  }

  /** Names of a session that a step leaves evicted open nothing after it. */
  lemma EvictedNames(env: Env, sv: Server, l: Label, now: int, id: string, token: string, invitation: string)
    requires Inv(env, sv) && Fresh(sv, l) && token in sv.minted && invitation in sv.minted
    requires id !in Apply(env, sv, l, now).0.sessions
    requires Authenticate(sv, token) == None || Authenticate(sv, token) == Some(id)
    requires Invited(sv, invitation) == None || Invited(sv, invitation) == Some(id)
    ensures var sv' := Apply(env, sv, l, now).0; Authenticate(sv', token).None? && Invited(sv', invitation).None?
  {
    hide Inv, Apply, Fresh;
    StepTokens(env, sv, l, now, token);
    StepTokens(env, sv, l, now, invitation);
    AuthenticateIff(env, sv, token, id);
    InvitationLive(env, sv, invitation);
  }

  lemma InvitationLive(env: Env, sv: Server, invitation: string)
    requires Inv(env, sv)
    ensures invitation in sv.invitations <==> Invited(sv, invitation).Some?
  {
    hide RecordOk, WorkersOk, NamesOk, TokensOk, NoncesOk;
  }

  /** Once the session is gone, the old names are gone with it: whatever a retry hands out is new. */
  lemma CreateReplayEvicted(env: Env, sv: Server, policy: SessionPolicy, nonce: string, mint: Mint, now: int,
                            run: seq<Event>, again: SessionPolicy, spare: Mint, later: int)
    requires Plays(env, sv, Event(Create(policy, nonce, mint), now), run)
    requires nonce != "" && CreateStep(env, sv, policy, nonce, mint, now).1.Created?
    requires Fresh(Later(env, sv, Event(Create(policy, nonce, mint), now), run), Create(again, nonce, spare))
    requires var id := Claimed(CreateStep(env, sv, policy, nonce, mint, now).0, nonce);
             id !in Sweep(env.options, Later(env, sv, Event(Create(policy, nonce, mint), now), run), later).sessions
    ensures var answer := CreateStep(env, sv, policy, nonce, mint, now).1;
            var reply := CreateStep(env, Later(env, sv, Event(Create(policy, nonce, mint), now), run),
                                    again, nonce, spare, later).1;
            reply.Created? ==> reply.invitation != answer.invitation && reply.token != answer.token
  {
    hide Inv, RecordOk, CreateStep, Enforce, Sweep, Evolves;
    var first, retry := Event(Create(policy, nonce, mint), now), Create(again, nonce, spare);
    var answer := CreateStep(env, sv, policy, nonce, mint, now).1;
    CreateRemembers(env, sv, policy, nonce, mint, now);
    var mid, end := Next(env, sv, first), Later(env, sv, first, run);
    var id := mid.creatorNonces[nonce];
    GrowsSince(env, sv, first, run, id);
    Guarantees.FirstTokenIsCreator(env, mid, id);
    NamesMinted(env, mid, id, answer.token);
    NamesNeverMove(env, mid, run, answer.token);
    NamesNeverMove(env, mid, run, answer.invitation);
    TokensNeverMove(env, mid, run, answer.token, id);
    RecordAndName(env, mid, id);
    NamesNeverMove(env, mid, run, id);
    CreateShape(env, end, again, nonce, spare, later);
    EvictedNames(env, end, retry, later, id, answer.token, answer.invitation);
    if CreateStep(env, end, again, nonce, spare, later).1.Created? {
      Guarantees.CreatedTokensWork(env, end, again, nonce, spare, later);
    }
  }

  /**
   A repeated creation, any time later. While its session lives it is answered from it,
   below capacity and for the same policy; nothing changes beyond the sweep. Once the
   session is gone it is a new request: it never hands out the old names, and unless
   another creation has claimed the nonce since, it is answered as if it had none.
   */
  lemma CreateReplay(env: Env, sv: Server, policy: SessionPolicy, nonce: string, mint: Mint, now: int,
                     run: seq<Event>, again: SessionPolicy, spare: Mint, later: int)
    requires Plays(env, sv, Event(Create(policy, nonce, mint), now), run)
    requires nonce != "" && CreateStep(env, sv, policy, nonce, mint, now).1.Created?
    requires Fresh(Later(env, sv, Event(Create(policy, nonce, mint), now), run), Create(again, nonce, spare))
    ensures var (made, answer) := CreateStep(env, sv, policy, nonce, mint, now);
            var end := Later(env, sv, Event(Create(policy, nonce, mint), now), run);
            var swept := Sweep(env.options, end, later);
            var (sv', reply) := CreateStep(env, end, again, nonce, spare, later);
            if Claimed(made, nonce) in swept.sessions then
              && sv' == swept
              && (reply.Created? <==> |swept.sessions| < env.options.maxSessions && SameRequest(policy, again))
              && (reply.Created? ==> reply == Created(answer.invitation, swept.sessions[Claimed(made, nonce)].phase,
                                                      answer.token))
              && (!reply.Created? ==>
                    reply == if |swept.sessions| >= env.options.maxSessions then Failed(ResourceExhausted) else Mismatch(env, again))
            else
              && (reply.Created? ==> reply.invitation != answer.invitation && reply.token != answer.token)
              && (nonce in swept.creatorNonces ==> sv' == swept)
              && (nonce !in swept.creatorNonces ==>
                    && reply == CreateStep(env, end, again, "", spare, later).1
                    && (reply.Failed? ==> sv' == swept)
                    && (!reply.Failed? ==> reply == Created(spare.invitation, Open, spare.creator)
                                           && sv'.creatorNonces == swept.creatorNonces[nonce := spare.id]))
  {
    hide Inv, RecordOk, CreateStep, Sweep, Fresh, Apply;
    CreateRemembers(env, sv, policy, nonce, mint, now);
    var end := Later(env, sv, Event(Create(policy, nonce, mint), now), run);
    if Claimed(CreateStep(env, sv, policy, nonce, mint, now).0, nonce) in Sweep(env.options, end, later).sessions {
      CreateReplayAlive(env, sv, policy, nonce, mint, now, run, again, spare, later);
    } else {
      CreateReplayEvicted(env, sv, policy, nonce, mint, now, run, again, spare, later);
      if nonce in Sweep(env.options, end, later).creatorNonces {
        LaterKeeps(env, sv, Event(Create(policy, nonce, mint), now), run);
        CreateTaken(env, end, again, nonce, spare, later);
      } else {
        CreateAnew(env, end, again, nonce, spare, later);
      }
    }
  }

  lemma LaterKeeps(env: Env, sv: Server, first: Event, run: seq<Event>)
    requires Plays(env, sv, first, run)
    ensures Inv(env, Later(env, sv, first, run))
  {
    hide Inv, Apply, Fresh;
    StepKeeps(env, sv, first.step, first.now);
    RunKeeps(env, Next(env, sv, first), run);
  }

  /** A claimed nonce never creates anything. */
  lemma CreateTaken(env: Env, sv: Server, policy: SessionPolicy, nonce: string, mint: Mint, now: int)
    requires Inv(env, sv) && nonce != "" && nonce in Sweep(env.options, sv, now).creatorNonces
    ensures CreateStep(env, sv, policy, nonce, mint, now).0 == Sweep(env.options, sv, now)
  {
    hide Inv, Sweep, SchemasParse;
    SweepKeeps(env, sv, now);
    NonceIff(env, Sweep(env.options, sv, now), nonce, Sweep(env.options, sv, now).creatorNonces[nonce]);
  }

  /** At capacity even a retry is refused, because the capacity is checked before the nonce. */
  lemma CreateFull(env: Env, sv: Server, policy: SessionPolicy, nonce: string, mint: Mint, now: int)
    requires |Sweep(env.options, sv, now).sessions| >= env.options.maxSessions
    ensures CreateStep(env, sv, policy, nonce, mint, now)
            == (Sweep(env.options, sv, now), Failed(ResourceExhausted))
  {
    hide Sweep;
  }

  lemma HasCreator(env: Env, s: Session)
    requires RecordOk(env, s)
    ensures s.tokens != []
  {
  }
}
