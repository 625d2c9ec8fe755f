/** The garbage-collecting sweep and session creation: what they keep and what a sweep leaves behind. */
module Sweeping {
  import opened Wrappers
  import opened Records
  import opened SessionRules
  import opened Server
  import opened SessionInvariant
  import opened ServerInvariant

  // ----- what a sweep leaves behind -----

  /** Worth keeping: not overdue, not a stalled abort, not past retention. */
  predicate WorthKeeping(options: Options, s: Session, now: int) {
    && !Overdue(options, s, now)
    && !(s.phase == Aborted && (s.error == JoinTimeout || s.error == InputTimeout))
    && (Terminal(s) ==> now - s.enteredAt <= options.terminalRetentionSeconds * SECOND)
  }

  lemma SweepSurvivors(env: Env, sv: Server, now: int, id: string)
    requires id in Sweep(env.options, sv, now).sessions
    ensures WorthKeeping(env.options, Sweep(env.options, sv, now).sessions[id], now)
  {
  }

  /** After a sweep each index is the old one restricted to entries of survivors. */
  lemma SweepRestrictsIndexes(env: Env, sv: Server, now: int)
    requires Inv(env, sv)
    ensures var sv' := Sweep(env.options, sv, now);
            && sv'.invitations == (map k | k in sv.invitations && sv.invitations[k] in sv'.sessions :: sv.invitations[k])
            && sv'.participants == (map t | t in sv.participants && sv.participants[t] in sv'.sessions :: sv.participants[t])
            && sv'.creatorNonces == (map n | n in sv.creatorNonces && sv.creatorNonces[n] in sv'.sessions :: sv.creatorNonces[n])
  {
    hide *;
    SweepParts(env.options, sv, now);
    InvParts(env, sv);
    var gone := Doomed(env.options, sv, now);
    var sessions' := Sweep(env.options, sv, now).sessions;
    RosterTokens(env, sv);
    InvitationsRestricted(sv, gone, sessions');
    TokensRestricted(sv, gone, sessions');
    NoncesRestricted(sv, gone, sessions');
  }

  lemma InvParts(env: Env, sv: Server)
    requires Inv(env, sv)
    ensures NamesOk(sv) && InvitationsOk(sv) && TokensOk(sv) && NoncesOk(sv)
  {
  }

  lemma SweepParts(options: Options, sv: Server, now: int)
    ensures var sv' := Sweep(options, sv, now);
            var gone := Doomed(options, sv, now);
            && sv'.sessions.Keys == sv.sessions.Keys - gone
            && sv'.invitations == sv.invitations - InvitationsOf(sv.sessions, gone)
            && sv'.participants == sv.participants - TokensOf(sv.sessions, gone)
            && sv'.creatorNonces == sv.creatorNonces - NoncesOf(sv.sessions, gone)
            && sv'.minted == sv.minted && sv'.workers == sv.workers && sv'.active == sv.active
            && forall id | id in sv'.sessions :: sv'.sessions[id] == Enforce(options, sv.sessions[id], now)
  {
    hide Enforce, Evictable;
  }

  lemma InvitationsRestricted(sv: Server, gone: set<string>, sessions': map<string, Session>)
    requires sessions'.Keys == sv.sessions.Keys - gone
    requires InvitationsOk(sv)
    ensures sv.invitations - InvitationsOf(sv.sessions, gone)
            == map k | k in sv.invitations && sv.invitations[k] in sessions' :: sv.invitations[k]
  {
    forall k | k in sv.invitations ensures k in InvitationsOf(sv.sessions, gone) <==> sv.invitations[k] in gone {
      assert Maps(sv.invitations, sv.sessions[sv.invitations[k]].invitation, sv.invitations[k]);
    }
  }

  lemma TokensRestricted(sv: Server, gone: set<string>, sessions': map<string, Session>)
    requires sessions'.Keys == sv.sessions.Keys - gone
    requires TokensOk(sv)
    requires forall id, t | id in sv.sessions :: t in sv.sessions[id].tokens <==> t in sv.sessions[id].participants
    ensures sv.participants - TokensOf(sv.sessions, gone)
            == map t | t in sv.participants && sv.participants[t] in sessions' :: sv.participants[t]
  {
    forall t | t in sv.participants ensures t in TokensOf(sv.sessions, gone) <==> sv.participants[t] in gone {
      var id := sv.participants[t];
      assert t in sv.sessions[id].tokens;
    }
  }

  lemma NoncesRestricted(sv: Server, gone: set<string>, sessions': map<string, Session>)
    requires sessions'.Keys == sv.sessions.Keys - gone
    requires NoncesOk(sv)
    ensures sv.creatorNonces - NoncesOf(sv.sessions, gone)
            == map n | n in sv.creatorNonces && sv.creatorNonces[n] in sessions' :: sv.creatorNonces[n]
  {
    forall n | n in sv.creatorNonces ensures n in NoncesOf(sv.sessions, gone) <==> sv.creatorNonces[n] in gone {
      assert Maps(sv.creatorNonces, sv.sessions[sv.creatorNonces[n]].creatorNonce, sv.creatorNonces[n]);
    }
  }

  lemma RosterTokens(env: Env, sv: Server)
    requires Inv(env, sv)
    ensures forall id, t | id in sv.sessions :: t in sv.sessions[id].tokens <==> t in sv.sessions[id].participants
  {
    hide WorkersOk, IndexesOk, PhaseOk, PolicyOk, InputOk, ResultOk;
    forall id, t | id in sv.sessions
      ensures t in sv.sessions[id].tokens <==> t in sv.sessions[id].participants
    {
      assert RecordOk(env, sv.sessions[id]);
    }
  }

  lemma EnforceIdempotent(options: Options, s: Session, now: int)
    ensures Enforce(options, Enforce(options, s, now), now) == Enforce(options, s, now)
  {
  }

  /** A second sweep at the same time finds nothing to do. */
  lemma SweepIdempotent(options: Options, sv: Server, now: int)
    ensures Sweep(options, Sweep(options, sv, now), now) == Sweep(options, sv, now)
  {
    hide Enforce, Evictable, Sweep;
    var once := Sweep(options, sv, now);
    SweepParts(options, sv, now);
    SweepParts(options, once, now);
    forall id | id in once.sessions ensures Enforce(options, once.sessions[id], now) == once.sessions[id] && id !in Doomed(options, once, now) {
      EnforceIdempotent(options, sv.sessions[id], now);
      assert id !in Doomed(options, sv, now);
    }
    assert Doomed(options, once, now) == {};
    assert InvitationsOf(once.sessions, {}) == {} && TokensOf(once.sessions, {}) == {} && NoncesOf(once.sessions, {}) == {};
    assert Sweep(options, once, now).sessions == once.sessions;
  }

  // ----- a sweep keeps the invariant -----

  lemma QuietFits(env: Env, w: Worker, s: Session, s': Session)
    requires FitsRecord(env, w, s) && QuietChange(s, s')
    ensures FitsRecord(env, w, s')
  {
    if w.job.Some? {
      SameJob(s, s', w.job.value.suffix);
    }
  }

  lemma SweepKeepsWorkers(env: Env, sv: Server, now: int)
    requires WorkersOk(env, sv) && forall id | id in sv.sessions :: RecordOk(env, sv.sessions[id])
    ensures WorkersOk(env, Sweep(env.options, sv, now))
  {
    hide FitsRecord, RecordOk, QuietChange, Enforce, Evictable;
    var sv' := Sweep(env.options, sv, now);
    forall t | t in sv.workers ensures WorkerOk(env, sv', sv.workers[t]) {
      var w := sv.workers[t];
      assert WorkerOk(env, sv, w);
      if w.session in sv'.sessions {
        EnforceIsQuiet(env, sv.sessions[w.session], now);
        QuietFits(env, w, sv.sessions[w.session], sv'.sessions[w.session]);
      }
    }
    forall id | id in sv'.sessions && Complete(sv'.sessions[id]) ensures id in Owners(sv'.workers) {
      EnforceIsQuiet(env, sv.sessions[id], now);
      QuietComplete(sv.sessions[id], sv'.sessions[id]);
    }
  }

  lemma QuietComplete(s: Session, s': Session)
    requires QuietChange(s, s')
    ensures Complete(s') ==> Complete(s)
  {
  }

  lemma SweepKeepsIndexes(env: Env, sv: Server, now: int)
    requires Inv(env, sv)
    ensures IndexesOk(Sweep(env.options, sv, now))
  {
    hide RecordOk, WorkersOk, IndexesOk, Evictable, Overdue;
    SweepRestrictsIndexes(env, sv, now);
    RestrictKeepsIndexes(sv, Sweep(env.options, sv, now));
  }

  /** Fewer sessions, same keys in each, indexes restricted to them. */
  ghost predicate Restricts(sv: Server, sv': Server) {
    && sv'.sessions.Keys <= sv.sessions.Keys && sv'.minted == sv.minted
    && (forall id | id in sv'.sessions :: SameKeys(sv.sessions[id], sv'.sessions[id]))
    && sv'.invitations == (map k | k in sv.invitations && sv.invitations[k] in sv'.sessions :: sv.invitations[k])
    && sv'.participants == (map t | t in sv.participants && sv.participants[t] in sv'.sessions :: sv.participants[t])
    && sv'.creatorNonces == (map n | n in sv.creatorNonces && sv.creatorNonces[n] in sv'.sessions :: sv.creatorNonces[n])
  }

  lemma RestrictKeepsIndexes(sv: Server, sv': Server)
    requires IndexesOk(sv) && Restricts(sv, sv')
    ensures IndexesOk(sv')
  {
    RestrictKeepsTokens(sv, sv');
    RestrictKeepsOthers(sv, sv');
  }

  lemma RestrictKeepsTokens(sv: Server, sv': Server)
    requires NamesOk(sv) && TokensOk(sv) && Restricts(sv, sv')
    ensures NamesOk(sv') && TokensOk(sv')
  {
    forall id, t | id in sv'.sessions
      ensures t in sv'.sessions[id].participants <==> t in sv.sessions[id].participants
    {
      assert SameKeys(sv.sessions[id], sv'.sessions[id]);
    }
  }

  lemma RestrictKeepsOthers(sv: Server, sv': Server)
    requires InvitationsOk(sv) && NoncesOk(sv) && Restricts(sv, sv')
    ensures InvitationsOk(sv') && NoncesOk(sv')
  {
    assert forall id | id in sv'.sessions :: SameKeys(sv.sessions[id], sv'.sessions[id]);
  }

  lemma SweepKeeps(env: Env, sv: Server, now: int)
    requires Inv(env, sv)
    ensures Inv(env, Sweep(env.options, sv, now))
    ensures |Sweep(env.options, sv, now).sessions| <= |sv.sessions|
  {
    hide *;
    SweepKeepsIndexes(env, sv, now);
    SweepKeepsRest(env, sv, now);
    InvFrom(env, sv, Sweep(env.options, sv, now));
  }

  lemma InvFrom(env: Env, sv: Server, sv': Server)
    requires Inv(env, sv) && |sv'.sessions| <= |sv.sessions|
    requires IndexesOk(sv') && WorkersOk(env, sv') && forall id | id in sv'.sessions :: RecordOk(env, sv'.sessions[id])
    ensures Inv(env, sv')
  {
    hide IndexesOk, WorkersOk, RecordOk;
  }

  lemma SweepKeepsRest(env: Env, sv: Server, now: int)
    requires Inv(env, sv)
    ensures var sv' := Sweep(env.options, sv, now);
            && WorkersOk(env, sv') && |sv'.sessions| <= |sv.sessions|
            && forall id | id in sv'.sessions :: RecordOk(env, sv'.sessions[id])
  {
    hide RecordOk, IndexesOk, WorkersOk, Sweep, Enforce, Evolves;
    var sv' := Sweep(env.options, sv, now);
    SweepParts(env.options, sv, now);
    SweepKeepsWorkers(env, sv, now);
    SubsetOfSameSize(sv'.sessions.Keys, sv.sessions.Keys);
    forall id | id in sv'.sessions ensures RecordOk(env, sv'.sessions[id]) {
      EnforceKeeps(env, sv.sessions[id], now);
    }
  }

  // ----- creation -----

  /** A newly created record over fresh names. */
  predicate Newborn(sv: Server, s: Session) {
    && s.phase == Open
    && s.tokens != [] && s.participants.Keys == {s.tokens[0]} && |s.tokens| == 1
    && s.id !in sv.minted && s.invitation !in sv.minted && s.tokens[0] !in sv.minted
    && s.creatorNonce !in sv.creatorNonces
  }

  lemma InsertKeepsIndexes(sv: Server, s: Session)
    requires IndexesOk(sv) && Newborn(sv, s)
    ensures IndexesOk(Insert(sv, s))
  {
    hide NamesOk, InvitationsOk, TokensOk, NoncesOk, Newborn, Insert;
    InsertKeepsTokens(sv, s);
    InsertKeepsNames(sv, s);
    InsertKeepsInvitations(sv, s);
    InsertKeepsNonces(sv, s);
  }

  lemma InsertKeepsNames(sv: Server, s: Session)
    requires NamesOk(sv) && Newborn(sv, s)
    ensures NamesOk(Insert(sv, s))
  {
  }

  lemma InsertKeepsInvitations(sv: Server, s: Session)
    requires NamesOk(sv) && InvitationsOk(sv) && Newborn(sv, s)
    ensures InvitationsOk(Insert(sv, s))
  {
    assert forall id | id in sv.sessions :: sv.sessions[id].invitation in sv.minted;
  }

  lemma InsertKeepsNonces(sv: Server, s: Session)
    requires NamesOk(sv) && NoncesOk(sv) && Newborn(sv, s)
    ensures NoncesOk(Insert(sv, s))
  {
    assert forall id | id in sv.sessions :: id in sv.minted;
  }

  lemma InsertKeepsTokens(sv: Server, s: Session)
    requires NamesOk(sv) && TokensOk(sv) && Newborn(sv, s)
    ensures TokensOk(Insert(sv, s))
  {
    assert forall t :: t in s.participants <==> t == s.tokens[0];
    var sv' := Insert(sv, s);
    forall k, t | k in sv'.sessions && t in sv'.sessions[k].participants ensures Maps(sv'.participants, t, k) {
      if k != s.id {
        assert t in sv.sessions[k].participants && t in sv.minted;
        assert Maps(sv.participants, t, k);
      }
    }
  }

  lemma InsertKeepsWorkers(env: Env, sv: Server, s: Session)
    requires WorkersOk(env, sv) && Newborn(sv, s)
    ensures WorkersOk(env, Insert(sv, s))
  {
    hide FitsRecord;
    var sv' := Insert(sv, s);
    forall t | t in sv.workers ensures WorkerOk(env, sv', sv.workers[t]) {
      assert WorkerOk(env, sv, sv.workers[t]);
    }
  }

  lemma InsertKeeps(env: Env, sv: Server, s: Session)
    requires Inv(env, sv) && Newborn(sv, s) && RecordOk(env, s) && |sv.sessions| < env.options.maxSessions
    ensures Inv(env, Insert(sv, s))
  {
    hide RecordOk, IndexesOk, WorkersOk, Newborn;
    InsertKeepsIndexes(sv, s);
    InsertKeepsWorkers(env, sv, s);
    assert Insert(sv, s).sessions.Keys == sv.sessions.Keys + {s.id};
  }

  lemma CreateStepKeeps(env: Env, sv: Server, policy: SessionPolicy, nonce: string, mint: Mint, now: int)
    requires Inv(env, sv) && Fresh(sv, Create(policy, nonce, mint))
    ensures Inv(env, CreateStep(env, sv, policy, nonce, mint, now).0)
  {
    hide RecordOk, WorkersOk, NamesOk, InvitationsOk, TokensOk, Sweep, NewSession, Newborn, Insert, Doomed;
    SweepKeeps(env, sv, now);
    SweepParts(env.options, sv, now);
    var swept := Sweep(env.options, sv, now);
    if CreateProblem(env, swept, policy).None? && (nonce == "" || nonce !in swept.creatorNonces) {
      var def := env.registry[policy.policyClass];
      NewKeeps(env, policy, nonce, mint, now);
      NewIsNewborn(swept, def, policy, nonce, mint, now);
      InsertKeeps(env, swept, NewSession(def, policy, nonce, mint.id, mint.creator, mint.invitation, now));
    }
  }

  lemma NewIsNewborn(sv: Server, def: PolicyDefinition, policy: SessionPolicy, nonce: string, mint: Mint, now: int)
    requires Fresh(sv, Create(policy, nonce, mint)) && (nonce == "" || nonce !in sv.creatorNonces) && NoncesOk(sv)
    ensures Newborn(sv, NewSession(def, policy, nonce, mint.id, mint.creator, mint.invitation, now))
  {
  }

  /** A creation request is a sweep, possibly followed by the insertion of one new record. */
  lemma CreateShape(env: Env, sv: Server, policy: SessionPolicy, nonce: string, mint: Mint, now: int)
    ensures var swept := Sweep(env.options, sv, now);
            var sv' := CreateStep(env, sv, policy, nonce, mint, now).0;
            || sv' == swept
            || (policy.policyClass in env.registry
                && sv' == Insert(swept, NewSession(env.registry[policy.policyClass], policy, nonce,
                                                   mint.id, mint.creator, mint.invitation, now)))
  {
    hide Sweep, SchemasParse, Insert, Normalized, NewSession;
  }

  // ----- every step keeps the invariant -----

  lemma StepKeeps(env: Env, sv: Server, l: Label, now: int)
    requires Inv(env, sv) && Fresh(sv, l)
    ensures Inv(env, Apply(env, sv, l, now).0)
  {
    hide Inv, CreateStep, JoinStep, AcceptStep, SubmitStep, WorkerStep, Poll;
    match l
    case Create(policy, nonce, mint) => CreateStepKeeps(env, sv, policy, nonce, mint, now);
    case Join(invitation, nonce, newToken) => JoinStepKeeps(env, sv, invitation, nonce, newToken, now);
    case Accept(token) => AcceptStepKeeps(env, sv, token, now);
    case Submit(token, payload, thread) => SubmitStepKeeps(env, sv, token, payload, thread, now);
    case GetResult(token) => PollKeeps(env, sv, token, now);
    case GetStatus(token) => PollKeeps(env, sv, token, now);
    case Work(thread, action) => WorkerStepKeeps(env, sv, thread, action, now);
  }

  /** The invariant holds after every run, whatever the schedule, the clock and the payloads. */
  lemma {:induction false} RunKeeps(env: Env, sv: Server, run: seq<Event>)
    requires Inv(env, sv) && Valid(env, sv, run)
    ensures Inv(env, After(env, sv, run))
    decreases |run|
  {
    hide Inv, Apply;
    if run == [] {
    } else {
      StepKeeps(env, sv, run[0].step, run[0].now);
      RunKeeps(env, Next(env, sv, run[0]), run[1..]);
    }
  }
}
