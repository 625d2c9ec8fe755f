/** What whole runs keep: each record only moves forward, results never change, workers are accounted for. */
module Runs {
  import opened Wrappers
  import opened Records
  import opened SessionRules
  import opened Server
  import opened SessionInvariant
  import opened ServerInvariant
  import opened Sweeping

  // ----- one step -----

  /** The step either leaves the record in place, moved along at most one edge, or evicts it. */
  predicate StepMoves(s: Session, s': Option<Session>) {
    s'.Some? ==> Evolves(s, s'.value) && Edge(s.phase, s'.value.phase)
  }

  lemma Unmoved(env: Env, s: Session)
    requires RecordOk(env, s)
    ensures StepMoves(s, Some(s))
  {
  }

  lemma StepMovesRecord(env: Env, sv: Server, l: Label, now: int, id: string)
    requires Inv(env, sv) && Fresh(sv, l) && id in sv.sessions
    ensures StepMoves(sv.sessions[id], Get(Apply(env, sv, l, now).0.sessions, id))
  {
    hide RecordOk, IndexesOk, WorkersOk, Evolves, Edge, Enforce, JoinRecord, AcceptRecord, SubmitRecord, CreateStep, WorkerStep;
    var s := sv.sessions[id];
    Unmoved(env, s);
    EnforceKeeps(env, s, now);
    match l
    case Create(policy, nonce, mint) => CreateMovesRecord(env, sv, policy, nonce, mint, now, id);
    case Join(invitation, nonce, newToken) =>
      TokenIsNew(sv, id, newToken);
      JoinKeeps(env, s, nonce, newToken, now);
    case Accept(token) =>
      if token in s.participants { AcceptKeeps(env, s, token, now); }
    case Submit(token, payload, thread) =>
      if token in s.participants { SubmitKeeps(env, s, token, payload, now); }
    case GetResult(token) =>
    case GetStatus(token) =>
    case Work(thread, action) => WorkMovesRecord(env, sv, thread, action, now, id);
  }

  lemma CreateMovesRecord(env: Env, sv: Server, policy: SessionPolicy, nonce: string, mint: Mint, now: int, id: string)
    requires Inv(env, sv) && Fresh(sv, Create(policy, nonce, mint)) && id in sv.sessions
    ensures StepMoves(sv.sessions[id], Get(CreateStep(env, sv, policy, nonce, mint, now).0.sessions, id))
  {
    hide RecordOk, WorkersOk, IndexesOk, Evolves, Edge, Enforce, Sweep, CreateStep;
    SweepParts(env.options, sv, now);
    EnforceKeeps(env, sv.sessions[id], now);
    IdsMatch(sv, id);
    CreateShape(env, sv, policy, nonce, mint, now);
  }

  lemma WorkMovesRecord(env: Env, sv: Server, thread: nat, a: Action, now: int, id: string)
    requires Inv(env, sv) && id in sv.sessions
    ensures StepMoves(sv.sessions[id], Get(WorkerStep(env, sv, thread, a, now).0.sessions, id))
  {
    hide RecordOk, IndexesOk, WorkersOk, FitsRecord, Evolves, Edge, WorkStep, SameKeys;
    Unmoved(env, sv.sessions[id]);
    if thread in sv.workers && Enabled(sv.workers[thread], a) {
      OwnWorker(env, sv, thread);
      var w := sv.workers[thread];
      if w.session in sv.sessions {
        WorkStepKeeps(env, w, sv.sessions[w.session], a, now);
      } else {
        WorkStepAlone(env, w, a, now);
      }
    }
  }

  /** Names are never reused: an evicted or unborn id that was minted stays absent. */
  lemma StepKeepsAbsent(env: Env, sv: Server, l: Label, now: int, id: string)
    requires Inv(env, sv) && Fresh(sv, l) && id in sv.minted && id !in sv.sessions
    ensures id in Apply(env, sv, l, now).0.minted && id !in Apply(env, sv, l, now).0.sessions
  {
    hide RecordOk, IndexesOk, WorkersOk, WorkStep, Sweep, CreateStep, JoinRecord, AcceptRecord, SubmitRecord, Enforce;
    match l
    case Create(policy, nonce, mint) =>
      SweepParts(env.options, sv, now);
      CreateShape(env, sv, policy, nonce, mint, now);
    case Work(thread, a) =>
      if thread in sv.workers && Enabled(sv.workers[thread], a) && sv.workers[thread].session !in sv.sessions {
        OwnWorker(env, sv, thread);
        WorkStepAlone(env, sv.workers[thread], a, now);
      }
    case _ =>
  }

  /** Only the generator makes names: the indexes gain at most fresh names, and no old name moves. */
  lemma StepTokens(env: Env, sv: Server, l: Label, now: int, name: string)
    requires Fresh(sv, l) && name in sv.minted
    ensures var sv' := Apply(env, sv, l, now).0;
            && name in sv'.minted
            && (name in sv'.participants ==> name in sv.participants && sv'.participants[name] == sv.participants[name])
            && (name in sv'.invitations ==> name in sv.invitations && sv'.invitations[name] == sv.invitations[name])
  {
    hide WorkStep, Sweep, CreateStep, JoinRecord, AcceptRecord, SubmitRecord, Enforce;
    if l.Create? {
      SweepParts(env.options, sv, now);
      CreateShape(env, sv, l.policy, l.nonce, l.mint, now);
    }
  }

  // ----- whole runs -----

  lemma {:induction false} RunKeepsAbsent(env: Env, sv: Server, run: seq<Event>, id: string)
    requires Inv(env, sv) && Valid(env, sv, run) && id in sv.minted && id !in sv.sessions
    ensures id !in After(env, sv, run).sessions
    decreases |run|
  {
    hide Inv, Apply, Fresh;
    if run == [] {
    } else {
      StepKeeps(env, sv, run[0].step, run[0].now);
      StepKeepsAbsent(env, sv, run[0].step, run[0].now, id);
      RunKeepsAbsent(env, Next(env, sv, run[0]), run[1..], id);
    }
  }

  /** A record still there at the end of a run only ever moved forward. */
  lemma {:induction false} RunMovesForward(env: Env, sv: Server, run: seq<Event>, id: string)
    requires Inv(env, sv) && Valid(env, sv, run)
    requires id in sv.sessions && id in After(env, sv, run).sessions
    ensures Evolves(sv.sessions[id], After(env, sv, run).sessions[id])
    decreases |run|
  {
    hide Inv, Apply, Fresh, Evolves, RecordOk;
    RecordAndName(env, sv, id);
    Unmoved(env, sv.sessions[id]);
    if run == [] {
    } else {
      var next := Next(env, sv, run[0]);
      StepKeeps(env, sv, run[0].step, run[0].now);
      StepTokens(env, sv, run[0].step, run[0].now, id);
      StepMovesRecord(env, sv, run[0].step, run[0].now, id);
      if id in next.sessions {
        RunMovesForward(env, next, run[1..], id);
        EvolvesTransitive(sv.sessions[id], next.sessions[id], After(env, sv, run).sessions[id]);
      } else {
        RunKeepsAbsent(env, next, run[1..], id);
      }
    }
  }

  lemma RecordAndName(env: Env, sv: Server, id: string)
    requires Inv(env, sv) && id in sv.sessions
    ensures RecordOk(env, sv.sessions[id]) && sv.sessions[id].id == id && id in sv.minted
  {
    hide RecordOk, WorkersOk;
  }

  /** Which session a live token opens, and that the lookup never fails half way. */
  lemma AuthenticateIff(env: Env, sv: Server, token: string, id: string)
    requires Inv(env, sv)
    ensures Authenticate(sv, token) == Some(id) <==> id in sv.sessions && token in sv.sessions[id].participants
    ensures Authenticate(sv, token).None? <==> token !in sv.participants
  {
    hide RecordOk, WorkersOk, NamesOk, InvitationsOk, NoncesOk;
    if id in sv.sessions && token in sv.sessions[id].participants {
      assert Maps(sv.participants, token, id);
    }
  }

  /** Which session a live invitation opens. */
  lemma InvitedIff(env: Env, sv: Server, invitation: string, id: string)
    requires Inv(env, sv)
    ensures Invited(sv, invitation) == Some(id) <==> id in sv.sessions && sv.sessions[id].invitation == invitation
  {
    hide RecordOk, WorkersOk, NamesOk, TokensOk, NoncesOk;
    if id in sv.sessions {
      assert Maps(sv.invitations, sv.sessions[id].invitation, id);
    }
  }

  /**
   Agreement: once some participant has been told CLOSED with a result, every
   later answer to any participant of that session is CLOSED with that result,
   until the session is evicted and its tokens are refused.
   */
  lemma Agreement(env: Env, sv: Server, token: string, now: int, run: seq<Event>, other: string, later: int)
    requires Inv(env, sv) && Valid(env, sv, run)
    requires ResultStep(env, sv, token, now).1.Outcome? && ResultStep(env, sv, token, now).1.phase == Closed
    requires var id := Authenticate(sv, token).value; other in sv.sessions[id].participants
    ensures ResultStep(env, sv, token, now).1
            == Outcome(Closed, sv.sessions[Authenticate(sv, token).value].resultJson, Unspecified)
    ensures var id := Authenticate(sv, token).value;
            var end := After(env, sv, run);
            ResultStep(env, end, other, later).1
            == if id in end.sessions then ResultStep(env, sv, token, now).1 else Failed(PermissionDenied)
  {
    hide Inv, RecordOk, Apply, Fresh, Poll;
    var id := Authenticate(sv, token).value;
    var end := After(env, sv, run);
    assert sv.sessions[id].phase == Closed;
    AuthenticateIff(env, sv, token, id);
    TokensNeverMove(env, sv, run, other, id);
    if id in end.sessions {
      RunMovesForward(env, sv, run, id);
    }
  }

  lemma {:induction false} NamesNeverMove(env: Env, sv: Server, run: seq<Event>, name: string)
    requires Valid(env, sv, run) && name in sv.minted
    ensures var end := After(env, sv, run);
            && name in end.minted
            && (name in end.participants ==> name in sv.participants && end.participants[name] == sv.participants[name])
            && (name in end.invitations ==> name in sv.invitations && end.invitations[name] == sv.invitations[name])
    decreases |run|
  {
    hide Apply, Fresh;
    if run == [] {
    } else {
      StepTokens(env, sv, run[0].step, run[0].now, name);
      NamesNeverMove(env, Next(env, sv, run[0]), run[1..], name);
    }
  }

  lemma NamesMinted(env: Env, sv: Server, id: string, token: string)
    requires Inv(env, sv) && id in sv.sessions
    ensures var s := sv.sessions[id];
            && s.invitation in sv.minted && Maps(sv.invitations, s.invitation, id)
            && (token in s.participants ==> token in sv.minted && Maps(sv.participants, token, id))
  {
    hide RecordOk, WorkersOk, Maps;
  }

  /** A participant token and an invitation name one session for ever, and nothing once it is evicted. */
  lemma TokensNeverMove(env: Env, sv: Server, run: seq<Event>, token: string, id: string)
    requires Inv(env, sv) && Valid(env, sv, run) && id in sv.sessions
    ensures var end := After(env, sv, run);
            var invitation := sv.sessions[id].invitation;
            && Invited(end, invitation) == (if id in end.sessions then Some(id) else None)
            && (token in sv.sessions[id].participants ==>
                  Authenticate(end, token) == if id in end.sessions then Some(id) else None)
  {
    hide Inv, RecordOk, Apply, Fresh;
    var end := After(env, sv, run);
    var invitation := sv.sessions[id].invitation;
    RunKeeps(env, sv, run);
    NamesMinted(env, sv, id, token);
    NamesNeverMove(env, sv, run, invitation);
    if id in end.sessions {
      RunMovesForward(env, sv, run, id);
      InvitedIff(env, end, invitation, id);
    }
    if token in sv.sessions[id].participants {
      NamesNeverMove(env, sv, run, token);
      AuthenticateIff(env, end, token, id);
    }
  }
}
