/** The invariant of every reachable server state, kept by every step. */
module ServerInvariant {
  import opened Wrappers
  import opened Records
  import opened SessionRules
  import opened Server
  import opened SessionInvariant

  // ----- indexes -----

  /** Table keys are the ids, and every name in use came from the generator. */
  predicate NamesOk(sv: Server) {
    forall id | id in sv.sessions ::
      && sv.sessions[id].id == id
      && id in sv.minted
      && sv.sessions[id].invitation in sv.minted
      && forall t | t in sv.sessions[id].participants :: t in sv.minted
  }

  predicate Maps(index: map<string, string>, key: string, id: string) {
    key in index && index[key] == id
  }

  predicate InvitationsOk(sv: Server) {
    && (forall k | k in sv.invitations ::
          sv.invitations[k] in sv.sessions && sv.sessions[sv.invitations[k]].invitation == k)
    && (forall id | id in sv.sessions :: Maps(sv.invitations, sv.sessions[id].invitation, id))
  }

  predicate TokensOk(sv: Server) {
    && (forall t | t in sv.participants ::
          sv.participants[t] in sv.sessions && t in sv.sessions[sv.participants[t]].participants)
    && (forall id, t | id in sv.sessions && t in sv.sessions[id].participants :: Maps(sv.participants, t, id))
  }

  predicate NoncesOk(sv: Server) {
    && (forall n | n in sv.creatorNonces ::
          n != "" && sv.creatorNonces[n] in sv.sessions && sv.sessions[sv.creatorNonces[n]].creatorNonce == n)
    && (forall id | id in sv.sessions && sv.sessions[id].creatorNonce != "" ::
          Maps(sv.creatorNonces, sv.sessions[id].creatorNonce, id))
  }

  predicate IndexesOk(sv: Server) {
    NamesOk(sv) && InvitationsOk(sv) && TokensOk(sv) && NoncesOk(sv)
  }

  // ----- workers -----

  function Live(workers: map<nat, Worker>): set<nat> {
    set t | t in workers && workers[t].point != Exited
  }

  function Owners(workers: map<nat, Worker>): set<string> {
    set t | t in workers :: workers[t].session
  }

  /** A worker that may still write a result. */
  predicate Unfinished(w: Worker) {
    w.point != Leaving && w.point != Exited
  }

  /** A worker's own locals fit its program point. */
  predicate LocalsOk(w: Worker) {
    && (w.point == Pending || w.point == Started ==> w.job.None?)
    && (w.point == Holding || w.point == Ready ==> w.job.Some?)
    && (w.point == Ready ==> |w.replies| == MAX_LLM_RETRIES)
  }

  /** What the worker carries agrees with the record, for as long as the record exists. */
  predicate FitsRecord(env: Env, w: Worker, s: Session) {
    && Complete(s)
    && (w.job.Some? ==> w.job.value == JobOf(s, w.job.value.suffix))
    && (s.phase == Calculating ==> Unfinished(w))
    && (s.phase == Closed ==>
          && !Unfinished(w) && w.job.Some? && |w.replies| == MAX_LLM_RETRIES
          && Published(env, w.job.value, w.replies) == Some(s.resultJson))
  }

  predicate WorkerOk(env: Env, sv: Server, w: Worker) {
    && LocalsOk(w)
    && w.session in sv.minted
    && (w.session in sv.sessions ==> FitsRecord(env, w, sv.sessions[w.session]))
  }

  predicate WorkersOk(env: Env, sv: Server) {
    && sv.active == |Live(sv.workers)|
    && (forall t | t in sv.workers :: WorkerOk(env, sv, sv.workers[t]))
    && (forall t, u | t in sv.workers && u in sv.workers && t != u :: sv.workers[t].session != sv.workers[u].session)
    && (forall id | id in sv.sessions && Complete(sv.sessions[id]) :: id in Owners(sv.workers))
  }

  predicate CapacityOk(env: Env, sv: Server) {
    |sv.sessions| <= if env.options.maxSessions < 0 then 0 else env.options.maxSessions
  }

  ghost predicate Inv(env: Env, sv: Server) {
    && (forall id | id in sv.sessions :: RecordOk(env, sv.sessions[id]))
    && IndexesOk(sv)
    && WorkersOk(env, sv)
    && CapacityOk(env, sv)
  }

  lemma EmptyOk(env: Env)
    ensures Inv(env, EMPTY)
  {
  }

  // ----- replacing one record -----

  /** A change that keeps the roster and needs no new worker. */
  predicate QuietChange(s: Session, s': Session) {
    && Evolves(s, s') && s'.participants.Keys == s.participants.Keys && s'.tokens == s.tokens
    && (Complete(s') ==> Complete(s))
    && (s'.phase == Calculating ==> s.phase == Calculating)
    && (s'.phase == Closed ==> s' == s)
  }

  predicate SameKeys(s: Session, s': Session) {
    && s'.id == s.id && s'.invitation == s.invitation && s'.creatorNonce == s.creatorNonce
    && s'.participants.Keys == s.participants.Keys
  }

  lemma PutKeepsIndexes(sv: Server, id: string, s': Session)
    requires IndexesOk(sv) && id in sv.sessions && SameKeys(sv.sessions[id], s')
    ensures IndexesOk(Put(sv, id, s'))
  {
    PutKeepsTokens(sv, id, s');
  }

  lemma PutKeepsTokens(sv: Server, id: string, s': Session)
    requires NamesOk(sv) && TokensOk(sv) && id in sv.sessions && SameKeys(sv.sessions[id], s')
    ensures NamesOk(Put(sv, id, s')) && TokensOk(Put(sv, id, s'))
  {
    assert forall t :: t in s'.participants <==> t in sv.sessions[id].participants;
  }

  lemma SameJob(s: Session, s': Session, suffix: string)
    requires s'.participants == s.participants && s'.tokens == s.tokens
    requires s'.policy == s.policy && s'.policyDef == s.policyDef
    ensures JobOf(s', suffix) == JobOf(s, suffix)
  {
    assert OrderedInputs(s') == OrderedInputs(s);
  }

  lemma QuietKeepsWorkers(env: Env, sv: Server, id: string, s': Session)
    requires WorkersOk(env, sv) && id in sv.sessions && QuietChange(sv.sessions[id], s')
    ensures WorkersOk(env, Put(sv, id, s'))
  {
    var sv' := Put(sv, id, s');
    forall t | t in sv.workers ensures WorkerOk(env, sv', sv.workers[t]) {
      var w := sv.workers[t];
      assert WorkerOk(env, sv, w);
      if w.session == id && w.job.Some? {
        SameJob(sv.sessions[id], s', w.job.value.suffix);
      }
    }
  }

  lemma PutKeepsSize(sv: Server, id: string, s': Session)
    requires id in sv.sessions
    ensures |Put(sv, id, s').sessions| == |sv.sessions|
  {
    assert Put(sv, id, s').sessions.Keys == sv.sessions.Keys;
  }

  lemma QuietSameKeys(s: Session, s': Session)
    requires QuietChange(s, s')
    ensures SameKeys(s, s')
  {
  }

  lemma QuietKeeps(env: Env, sv: Server, id: string, s': Session)
    requires Inv(env, sv) && id in sv.sessions && QuietChange(sv.sessions[id], s') && RecordOk(env, s')
    ensures Inv(env, Put(sv, id, s'))
  {
    hide RecordOk, IndexesOk, WorkersOk, QuietChange;
    QuietSameKeys(sv.sessions[id], s');
    PutKeepsIndexes(sv, id, s');
    QuietKeepsWorkers(env, sv, id, s');
    PutKeepsSize(sv, id, s');
  }

  lemma EnforceIsQuiet(env: Env, s: Session, now: int)
    requires RecordOk(env, s)
    ensures QuietChange(s, Enforce(env.options, s, now)) && RecordOk(env, Enforce(env.options, s, now))
  {
    EnforceKeeps(env, s, now);
  }

  // ----- polls, accepts -----

  lemma PollKeeps(env: Env, sv: Server, token: string, now: int)
    requires Inv(env, sv)
    ensures Inv(env, Poll(env, sv, token, now))
  {
    match Authenticate(sv, token)
    case None =>
    case Some(id) =>
      EnforceIsQuiet(env, sv.sessions[id], now);
      QuietKeeps(env, sv, id, Enforce(env.options, sv.sessions[id], now));
  }

  lemma AcceptIsQuiet(env: Env, s: Session, token: string, now: int)
    requires RecordOk(env, s) && token in s.participants
    ensures QuietChange(s, AcceptRecord(env, s, token, now).0)
  {
    hide RecordOk, Evolves;
    AcceptKeeps(env, s, token, now);
    var s' := AcceptRecord(env, s, token, now).0;
    assert s'.participants.Keys == s.participants.Keys;
  }

  lemma AcceptStepKeeps(env: Env, sv: Server, token: string, now: int)
    requires Inv(env, sv)
    ensures Inv(env, AcceptStep(env, sv, token, now).0)
  {
    match Authenticate(sv, token)
    case None =>
    case Some(id) =>
      AcceptKeeps(env, sv.sessions[id], token, now);
      AcceptIsQuiet(env, sv.sessions[id], token, now);
      QuietKeeps(env, sv, id, AcceptRecord(env, sv.sessions[id], token, now).0);
  }

  // ----- joins -----

  /** Only a fresh join lengthens the roster; everything else is at most a timeout. */
  lemma JoinCases(env: Env, s: Session, nonce: string, token: string, now: int)
    ensures var s' := JoinRecord(env, s, nonce, token, now).0;
            if |s'.tokens| == |s.tokens| then s' == Enforce(env.options, s, now)
            else s' == AddParticipant(s, nonce, token) && s.phase == Open && |s.participants| < s.policy.expected
                 && (nonce == "" || nonce !in s.nonceToToken)
  {
  }

  lemma JoinStepKeeps(env: Env, sv: Server, invitation: string, nonce: string, newToken: string, now: int)
    requires Inv(env, sv) && newToken !in sv.minted
    ensures Inv(env, JoinStep(env, sv, invitation, nonce, newToken, now).0)
  {
    match Invited(sv, invitation)
    case None =>
    case Some(id) =>
      var s := sv.sessions[id];
      var s' := JoinRecord(env, s, nonce, newToken, now).0;
      JoinCases(env, s, nonce, newToken, now);
      if |s'.tokens| == |s.tokens| {
        EnforceIsQuiet(env, s, now);
        QuietKeeps(env, sv, id, s');
      } else {
        AddParticipantKeeps(env, sv, id, nonce, newToken);
      }
  }

  lemma AddParticipantKeeps(env: Env, sv: Server, id: string, nonce: string, newToken: string)
    requires Inv(env, sv) && newToken !in sv.minted && id in sv.sessions
    requires var s := sv.sessions[id];
             s.phase == Open && |s.participants| < s.policy.expected && nonce !in s.nonceToToken
    ensures var s' := AddParticipant(sv.sessions[id], nonce, newToken);
            Inv(env, Put(sv, id, s').(participants := sv.participants[newToken := s'.id],
                                      minted := sv.minted + {newToken}))
  {
    hide RecordOk, IndexesOk, WorkersOk, AddParticipant, Evolves;
    var s := sv.sessions[id];
    var s' := AddParticipant(s, nonce, newToken);
    TokenIsNew(sv, id, newToken);
    AddKeeps(env, s, nonce, newToken);
    AddShape(s, nonce, newToken);
    PutKeepsSize(sv, id, s');
    AddKeepsIndexes(sv, id, s', newToken);
    AddKeepsWorkers(env, sv, id, s', newToken);
  }

  lemma AddShape(s: Session, nonce: string, newToken: string)
    ensures var s' := AddParticipant(s, nonce, newToken);
            && s'.id == s.id && s'.invitation == s.invitation && s'.creatorNonce == s.creatorNonce
            && s'.phase == s.phase && s'.participants.Keys == s.participants.Keys + {newToken}
  {
  }

  lemma TokenIsNew(sv: Server, id: string, newToken: string)
    requires IndexesOk(sv) && id in sv.sessions && newToken !in sv.minted
    ensures newToken !in sv.sessions[id].participants
  {
  }

  lemma AddKeepsWorkers(env: Env, sv: Server, id: string, s': Session, newToken: string)
    requires WorkersOk(env, sv) && id in sv.sessions && sv.sessions[id].phase == Open && s'.phase == Open
    ensures WorkersOk(env, Put(sv, id, s').(participants := sv.participants[newToken := s'.id],
                                            minted := sv.minted + {newToken}))
  {
    var sv' := Put(sv, id, s').(participants := sv.participants[newToken := s'.id], minted := sv.minted + {newToken});
    forall t | t in sv.workers ensures WorkerOk(env, sv', sv.workers[t]) {
      assert WorkerOk(env, sv, sv.workers[t]);
    }
  }

  lemma AddKeepsIndexes(sv: Server, id: string, s': Session, newToken: string)
    requires IndexesOk(sv) && id in sv.sessions && newToken !in sv.minted
    requires var s := sv.sessions[id];
             && s'.id == s.id && s'.invitation == s.invitation && s'.creatorNonce == s.creatorNonce
             && s'.participants.Keys == s.participants.Keys + {newToken}
    ensures IndexesOk(Put(sv, id, s').(participants := sv.participants[newToken := s'.id],
                                       minted := sv.minted + {newToken}))
  {
    hide TokensOk, InvitationsOk, NoncesOk;
    AddKeepsTokens(sv, id, s', newToken);
    AddKeepsOthers(sv, id, s', newToken);
    assert forall t :: t in s'.participants <==> t in sv.sessions[id].participants || t == newToken;
  }

  lemma AddKeepsOthers(sv: Server, id: string, s': Session, newToken: string)
    requires InvitationsOk(sv) && NoncesOk(sv) && id in sv.sessions
    requires s'.invitation == sv.sessions[id].invitation && s'.creatorNonce == sv.sessions[id].creatorNonce
    ensures var sv' := Put(sv, id, s').(participants := sv.participants[newToken := s'.id],
                                        minted := sv.minted + {newToken});
            InvitationsOk(sv') && NoncesOk(sv')
  {
  }

  lemma AddKeepsTokens(sv: Server, id: string, s': Session, newToken: string)
    requires NamesOk(sv) && TokensOk(sv) && id in sv.sessions && newToken !in sv.minted
    requires s'.id == id && s'.participants.Keys == sv.sessions[id].participants.Keys + {newToken}
    ensures TokensOk(Put(sv, id, s').(participants := sv.participants[newToken := s'.id], minted := sv.minted + {newToken}))
  {
    var participants' := sv.participants[newToken := s'.id];
    var sessions' := sv.sessions[id := s'];
    assert forall t :: t in s'.participants <==> t in sv.sessions[id].participants || t == newToken;
    forall t | t in participants' ensures participants'[t] in sessions' && t in sessions'[participants'[t]].participants {
      assert t != newToken ==> t in sv.participants;
    }
    forall k, t | k in sessions' && t in sessions'[k].participants ensures Maps(participants', t, k) {
      TokenIsMinted(sv, id, k, t, newToken, s');
    }
  }

  lemma TokenIsMinted(sv: Server, id: string, k: string, t: string, newToken: string, s': Session)
    requires NamesOk(sv) && TokensOk(sv) && id in sv.sessions && newToken !in sv.minted
    requires s'.participants.Keys == sv.sessions[id].participants.Keys + {newToken}
    requires k in sv.sessions && t in (if k == id then s' else sv.sessions[k]).participants
    ensures if t == newToken then k == id else Maps(sv.participants, t, k)
  {
    if t != newToken || k != id {
      assert t in s'.participants.Keys <==> t in sv.sessions[id].participants.Keys + {newToken};
      assert t in sv.sessions[k].participants;
    }
  }

  // ----- submissions -----

  lemma SubmitIsQuiet(env: Env, s: Session, token: string, payload: string, now: int)
    requires RecordOk(env, s) && token in s.participants
    requires SubmitRecord(env, s, token, payload, now).1 != Dispatched
    ensures QuietChange(s, SubmitRecord(env, s, token, payload, now).0)
  {
    hide RecordOk, Evolves;
    SubmitKeeps(env, s, token, payload, now);
    SubmitSameKeys(env, s, token, payload, now);
  }

  lemma SubmitSameKeys(env: Env, s: Session, token: string, payload: string, now: int)
    requires token in s.participants
    ensures SameKeys(s, SubmitRecord(env, s, token, payload, now).0)
  {
    var s' := SubmitRecord(env, s, token, payload, now).0;
    assert s'.participants.Keys == s.participants.Keys;
  }

  lemma SubmitStepKeeps(env: Env, sv: Server, token: string, payload: string, thread: nat, now: int)
    requires Inv(env, sv) && thread !in sv.workers
    ensures Inv(env, SubmitStep(env, sv, token, payload, thread, now).0)
  {
    hide RecordOk, IndexesOk, WorkersOk, SubmitRecord, Evolves, QuietChange;
    match Authenticate(sv, token)
    case None =>
    case Some(id) =>
      var s := sv.sessions[id];
      var (s', reply) := SubmitRecord(env, s, token, payload, now);
      SubmitKeeps(env, s, token, payload, now);
      DispatchIff(env, s, token, payload, now);
      SubmitSameKeys(env, s, token, payload, now);
      IdsMatch(sv, id);
      if reply == Dispatched {
        PutKeepsIndexes(sv, id, s');
        PutKeepsSize(sv, id, s');
        IndexesIgnoreWorkers(Put(sv, id, s'), sv.active + 1, sv.workers[thread := Worker(s'.id, Pending, None, [])]);
        DispatchKeepsWorkers(env, sv, id, s', thread);
      } else {
        SubmitIsQuiet(env, s, token, payload, now);
        QuietKeeps(env, sv, id, s');
      }
  }

  lemma IdsMatch(sv: Server, id: string)
    requires IndexesOk(sv) && id in sv.sessions
    ensures sv.sessions[id].id == id && id in sv.minted
  {
  }

  /** The indexes do not look at workers. */
  lemma IndexesIgnoreWorkers(sv: Server, active: int, workers: map<nat, Worker>)
    requires IndexesOk(sv)
    ensures IndexesOk(sv.(active := active, workers := workers))
  {
  }

  /** The session has no worker yet, so its first one is its only one. */
  lemma DispatchKeepsWorkers(env: Env, sv: Server, id: string, s': Session, thread: nat)
    requires WorkersOk(env, sv) && id in sv.sessions && id in sv.minted && thread !in sv.workers
    requires sv.sessions[id].phase == Sealed && s'.phase == Calculating && s'.id == id
    ensures WorkersOk(env, Put(sv, id, s').(active := sv.active + 1,
                                            workers := sv.workers[thread := Worker(s'.id, Pending, None, [])]))
    ensures id !in Owners(sv.workers)
  {
    var w := Worker(id, Pending, None, []);
    var workers := sv.workers[thread := w];
    var sv' := Put(sv, id, s').(active := sv.active + 1, workers := workers);
    forall t | t in sv.workers ensures sv.workers[t].session != id && WorkerOk(env, sv', sv.workers[t]) {
      assert WorkerOk(env, sv, sv.workers[t]);
    }
    AddKeepsLive(sv.workers, thread, w);
    assert WorkerOk(env, sv', w);
    hide FitsRecord;
  }

  lemma AddKeepsLive(workers: map<nat, Worker>, thread: nat, w: Worker)
    requires thread !in workers && w.point != Exited
    ensures var after := workers[thread := w];
            |Live(after)| == |Live(workers)| + 1 && Owners(after) == Owners(workers) + {w.session}
  {
    var after := workers[thread := w];
    assert Live(after) == Live(workers) + {thread};
    assert after[thread].session == w.session;
    forall k | k in Owners(workers) ensures k in Owners(after) {
      var t :| t in workers && workers[t].session == k;
      assert after[t].session == k;
    }
  }

  // ----- worker steps -----

  lemma AdvanceKeepsLive(workers: map<nat, Worker>, thread: nat, w': Worker)
    requires thread in workers && workers[thread].point != Exited && w'.session == workers[thread].session
    ensures var after := workers[thread := w'];
            && |Live(after)| == (if w'.point == Exited then |Live(workers)| - 1 else |Live(workers)|)
            && Owners(after) == Owners(workers)
  {
    var after := workers[thread := w'];
    assert thread in Live(workers);
    if w'.point == Exited {
      assert Live(after) == Live(workers) - {thread};
    } else {
      assert Live(after) == Live(workers);
    }
    forall k | k in Owners(workers) ensures k in Owners(after) {
      var t :| t in workers && workers[t].session == k;
      assert after[t].session == k;
    }
  }

  /** One worker step, seen from its own record. */
  lemma WorkStepKeeps(env: Env, w: Worker, s: Session, a: Action, now: int)
    requires Enabled(w, a) && LocalsOk(w) && RecordOk(env, s) && FitsRecord(env, w, s)
    ensures var (w', s') := WorkStep(env, w, Some(s), a, now);
            && s'.Some? && LocalsOk(w') && RecordOk(env, s'.value) && Evolves(s, s'.value)
            && Edge(s.phase, s'.value.phase) && FitsRecord(env, w', s'.value) && w'.session == w.session
            && SameKeys(s, s'.value)
  {
    hide RecordOk, Published, JobOf;
    match a
    case SpawnFail => SpawnFailKeeps(env, s);
    case Snapshot(suffix) => JobSchema(s, suffix);
    case Commit =>
      JobSchema(s, w.job.value.suffix);
      CommitKeeps(env, s, w.job.value, w.replies, now);
      SameJob(s, CommitRecord(s, Published(env, w.job.value, w.replies), now), w.job.value.suffix);
    case _ =>
  }

  lemma JobSchema(s: Session, suffix: string)
    ensures JobOf(s, suffix).outputSchema == OutputSchemaOf(s) && JobOf(s, suffix).suffix == suffix
  {
  }

  lemma WorkStepAlone(env: Env, w: Worker, a: Action, now: int)
    requires Enabled(w, a) && LocalsOk(w)
    ensures var (w', s') := WorkStep(env, w, None, a, now);
            s'.None? && LocalsOk(w') && w'.session == w.session
  {
  }

  lemma WorkerStepKeeps(env: Env, sv: Server, thread: nat, a: Action, now: int)
    requires Inv(env, sv)
    ensures Inv(env, WorkerStep(env, sv, thread, a, now).0)
  {
    hide RecordOk, IndexesOk, WorkersOk, FitsRecord, WorkStep, Evolves, SameKeys;
    if thread in sv.workers && Enabled(sv.workers[thread], a) {
      OwnWorker(env, sv, thread);
      var w := sv.workers[thread];
      var (w', s') := WorkStep(env, w, Get(sv.sessions, w.session), a, now);
      var active := if w'.point == Exited then sv.active - 1 else sv.active;
      if w.session in sv.sessions {
        WorkStepKeeps(env, w, sv.sessions[w.session], a, now);
        PutKeepsIndexes(sv, w.session, s'.value);
        PutKeepsSize(sv, w.session, s'.value);
        WorkKeeps(env, sv, Put(sv, w.session, s'.value), thread, w', active);
      } else {
        WorkStepAlone(env, w, a, now);
        WorkKeeps(env, sv, sv, thread, w', active);
      }
    }
  }

  /** The step as a change of the worker's own record, then of the worker. */
  lemma WorkKeeps(env: Env, sv: Server, mid: Server, thread: nat, w': Worker, active: int)
    requires Inv(env, sv) && thread in sv.workers && sv.workers[thread].point != Exited
    requires mid == sv.(sessions := mid.sessions) && IndexesOk(mid) && |mid.sessions| == |sv.sessions|
    requires var own := sv.workers[thread].session;
             && w'.session == own && LocalsOk(w')
             && mid.sessions.Keys == sv.sessions.Keys
             && (forall id | id in sv.sessions && id != own :: mid.sessions[id] == sv.sessions[id])
             && (own in sv.sessions ==> RecordOk(env, mid.sessions[own]) && FitsRecord(env, w', mid.sessions[own]))
    requires active == if w'.point == Exited then sv.active - 1 else sv.active
    ensures Inv(env, mid.(workers := sv.workers[thread := w'], active := active))
  {
    hide RecordOk, IndexesOk, WorkersOk, FitsRecord;
    var sv' := mid.(workers := sv.workers[thread := w'], active := active);
    IndexesIgnoreWorkers(mid, active, sv'.workers);
    OwnWorker(env, sv, thread);
    OtherWorkersKeep(env, sv, sv', thread);
  }

  lemma OwnWorker(env: Env, sv: Server, thread: nat)
    requires WorkersOk(env, sv) && thread in sv.workers
    ensures WorkerOk(env, sv, sv.workers[thread])
  {
  }

  lemma OtherWorkersKeep(env: Env, sv: Server, sv': Server, thread: nat)
    requires WorkersOk(env, sv) && thread in sv.workers && thread in sv'.workers
    requires sv'.workers == sv.workers[thread := sv'.workers[thread]] && sv'.minted == sv.minted
    requires var own := sv.workers[thread].session;
             && sv'.workers[thread].session == own
             && sv'.sessions.Keys == sv.sessions.Keys
             && (forall id | id in sv.sessions && id != own :: sv'.sessions[id] == sv.sessions[id])
    requires WorkerOk(env, sv', sv'.workers[thread])
    requires sv.workers[thread].point != Exited
    requires sv'.active == if sv'.workers[thread].point == Exited then sv.active - 1 else sv.active
    ensures WorkersOk(env, sv')
  {
    hide FitsRecord;
    forall t | t in sv'.workers && t != thread ensures WorkerOk(env, sv', sv'.workers[t]) {
      assert WorkerOk(env, sv, sv.workers[t]);
      assert sv.workers[t].session != sv.workers[thread].session;
    }
    AdvanceKeepsLive(sv.workers, thread, sv'.workers[thread]);
    assert sv.workers[thread].session in Owners(sv.workers);
  }
}
