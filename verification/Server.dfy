/**
 The whole server as a value, and one function that performs any request or
 worker step on it. Random tokens, clock readings, thread ids and model replies
 are part of the step.
 */
module Server {
  import opened Wrappers
  import opened Records
  import opened SessionRules

  /** Program point of a worker thread. */
  datatype Point =
    | Pending   // counted, thread not yet created
    | Started   // thread running, inputs not yet read
    | Holding   // inputs read, model not yet consulted
    | Ready     // model consulted, result not yet written
    | Leaving   // about to give its count back
    | Exited

  /** A worker and everything it ever carried; exited workers are remembered. */
  datatype Worker = Worker(session: string, point: Point, job: Option<Job>, replies: seq<Option<string>>)

  datatype Server = Server(
    sessions: map<string, Session>,
    invitations: map<string, string>,
    participants: map<string, string>,
    creatorNonces: map<string, string>,
    active: int,
    minted: set<string>,
    workers: map<nat, Worker>)

  const EMPTY := Server(map[], map[], map[], map[], 0, {}, map[])

  datatype Mint = Mint(id: string, creator: string, invitation: string)

  datatype Action =
    | SpawnOk
    | SpawnFail
    | Snapshot(suffix: string)
    | Infer(replies: seq<Option<string>>)
    | Commit
    | Exit

  datatype Label =
    | Create(policy: SessionPolicy, nonce: string, mint: Mint)
    | Join(invitation: string, nonce: string, newToken: string)
    | Accept(token: string)
    | Submit(token: string, payload: string, thread: nat)
    | GetResult(token: string)
    | GetStatus(token: string)
    | Work(thread: nat, action: Action)

  /** Randomness never repeats itself, and thread ids are new. */
  predicate Fresh(sv: Server, l: Label) {
    match l
    case Create(_, _, mint) =>
      && mint.id !in sv.minted && mint.creator !in sv.minted && mint.invitation !in sv.minted
      && mint.id != mint.creator && mint.id != mint.invitation && mint.creator != mint.invitation
    case Join(_, _, newToken) => newToken !in sv.minted
    case Submit(_, _, thread) => thread !in sv.workers
    case _ => true
  }

  // ----- lookup -----

  /** The session a participant token opens: index, then table, then roster. */
  function Authenticate(sv: Server, token: string): Option<string> {
    if token !in sv.participants then None
    else
      var id := sv.participants[token];
      if id !in sv.sessions || token !in sv.sessions[id].participants then None else Some(id)
  }

  function Invited(sv: Server, invitation: string): Option<string> {
    if invitation !in sv.invitations then None
    else
      var id := sv.invitations[invitation];
      if id !in sv.sessions then None else Some(id)
  }

  // ----- sweep -----

  predicate Swept(options: Options, s: Session, now: int) {
    Evictable(options, Enforce(options, s, now), now)
  }

  function Doomed(options: Options, sv: Server, now: int): set<string> {
    set id | id in sv.sessions && Swept(options, sv.sessions[id], now)
  }

  function TokensOf(sessions: map<string, Session>, ids: set<string>): set<string> {
    set id, t | id in ids && id in sessions && t in sessions[id].tokens :: t
  }

  function InvitationsOf(sessions: map<string, Session>, ids: set<string>): set<string> {
    set id | id in ids && id in sessions :: sessions[id].invitation
  }

  function NoncesOf(sessions: map<string, Session>, ids: set<string>): set<string> {
    set id | id in ids && id in sessions && sessions[id].creatorNonce != "" :: sessions[id].creatorNonce
  }

  /** Enforce every timeout, then drop the evictable records and what they indexed. */
  function Sweep(options: Options, sv: Server, now: int): Server {
    var gone := Doomed(options, sv, now);
    sv.(sessions := map id | id in sv.sessions && id !in gone :: Enforce(options, sv.sessions[id], now),
        invitations := sv.invitations - InvitationsOf(sv.sessions, gone),
        participants := sv.participants - TokensOf(sv.sessions, gone),
        creatorNonces := sv.creatorNonces - NoncesOf(sv.sessions, gone))
  }

  // ----- CreateSession -----

  predicate SchemasParse(lib: Library, def: PolicyDefinition) {
    && (def.inputSchema != "" ==> lib.parse(def.inputSchema).Some?)
    && (def.outputSchema != "" ==> lib.parse(def.outputSchema).Some?)
  }

  /** Why a creation request is refused before its nonce is looked at. */
  function CreateProblem(env: Env, sv: Server, policy: SessionPolicy): Option<Status> {
    if |sv.sessions| >= env.options.maxSessions then Some(ResourceExhausted)
    else if policy.policyClass !in env.registry then Some(InvalidArgument)
    else if policy.expected < 2 || policy.expected > MAX_PARTICIPANTS then Some(InvalidArgument)
    else if policy.timeoutSeconds > MAX_TIMEOUT_SECONDS then Some(InvalidArgument)
    else if !SchemasParse(env.lib, env.registry[policy.policyClass]) then Some(Internal)
    else None
  }

  /** The request's policy as it would be stored next to `stored`. */
  function Normalized(policy: SessionPolicy, stored: SessionPolicy): SessionPolicy {
    policy.(inputSchema := stored.inputSchema,
            outputSchema := stored.outputSchema,
            timeoutSeconds := NormalTimeout(policy.timeoutSeconds))
  }

  function Insert(sv: Server, s: Session): Server {
    sv.(sessions := sv.sessions[s.id := s],
        invitations := sv.invitations[s.invitation := s.id],
        participants := if s.tokens == [] then sv.participants else sv.participants[s.tokens[0] := s.id],
        creatorNonces := if s.creatorNonce == "" then sv.creatorNonces else sv.creatorNonces[s.creatorNonce := s.id],
        minted := sv.minted + {s.id, s.invitation} + set t | t in s.tokens)
  }

  function CreateStep(env: Env, before: Server, policy: SessionPolicy, nonce: string, mint: Mint, now: int)
    : (Server, Reply)
  {
    var sv := Sweep(env.options, before, now);
    var problem := CreateProblem(env, sv, policy);
    if problem.Some? then (sv, Failed(problem.value))
    else if nonce != "" && !env.lib.isUuidV4(nonce) then (sv, Failed(InvalidArgument))
    else if nonce != "" && nonce in sv.creatorNonces && sv.creatorNonces[nonce] in sv.sessions then
      var s := sv.sessions[sv.creatorNonces[nonce]];
      if s.policy != Normalized(policy, s.policy) then (sv, Failed(InvalidArgument))
      else (sv, Created(s.invitation, s.phase, if s.tokens == [] then "" else s.tokens[0]))
    else
      var s := NewSession(env.registry[policy.policyClass], policy, nonce, mint.id, mint.creator, mint.invitation, now);
      (Insert(sv, s), Created(mint.invitation, Open, mint.creator))
  }

  // ----- requests on one session -----

  function Put(sv: Server, id: string, s: Session): Server {
    sv.(sessions := sv.sessions[id := s])
  }

  function JoinStep(env: Env, sv: Server, invitation: string, nonce: string, newToken: string, now: int)
    : (Server, Reply)
  {
    match Invited(sv, invitation)
    case None => (sv, Failed(PermissionDenied))
    case Some(id) =>
      var (s, reply) := JoinRecord(env, sv.sessions[id], nonce, newToken, now);
      if |s.tokens| == |sv.sessions[id].tokens| then (Put(sv, id, s), reply)
      else (Put(sv, id, s).(participants := sv.participants[newToken := s.id], minted := sv.minted + {newToken}), reply)
  }

  function AcceptStep(env: Env, sv: Server, token: string, now: int): (Server, Reply) {
    match Authenticate(sv, token)
    case None => (sv, Failed(PermissionDenied))
    case Some(id) =>
      var (s, reply) := AcceptRecord(env, sv.sessions[id], token, now);
      (Put(sv, id, s), reply)
  }

  function SubmitStep(env: Env, sv: Server, token: string, payload: string, thread: nat, now: int)
    : (Server, Reply)
  {
    match Authenticate(sv, token)
    case None => (sv, Failed(PermissionDenied))
    case Some(id) =>
      var (s, reply) := SubmitRecord(env, sv.sessions[id], token, payload, now);
      if reply == Dispatched
      then (Put(sv, id, s).(active := sv.active + 1, workers := sv.workers[thread := Worker(s.id, Pending, None, [])]),
            reply)
      else (Put(sv, id, s), reply)
  }

  /** What a status poll does to the server: enforce one timeout. */
  function Poll(env: Env, sv: Server, token: string, now: int): Server {
    match Authenticate(sv, token)
    case None => sv
    case Some(id) => Put(sv, id, Enforce(env.options, sv.sessions[id], now))
  }

  function ResultStep(env: Env, sv: Server, token: string, now: int): (Server, Reply) {
    match Authenticate(sv, token)
    case None => (sv, Failed(PermissionDenied))
    case Some(id) => (Poll(env, sv, token, now), ResultReply(Enforce(env.options, sv.sessions[id], now)))
  }

  function StatusStep(env: Env, sv: Server, token: string, now: int): (Server, Reply) {
    match Authenticate(sv, token)
    case None => (sv, Failed(PermissionDenied))
    case Some(id) => (Poll(env, sv, token, now), ProgressReply(Enforce(env.options, sv.sessions[id], now)))
  }

  // ----- worker steps -----

  /** Which action a worker can take next. */
  predicate Enabled(w: Worker, a: Action) {
    match a
    case SpawnOk => w.point == Pending
    case SpawnFail => w.point == Pending
    case Snapshot(_) => w.point == Started
    case Infer(replies) => w.point == Holding && |replies| == MAX_LLM_RETRIES
    case Commit => w.point == Ready && w.job.Some?
    case Exit => w.point == Leaving
  }

  /** A worker step and the record of its session, if that record still exists. */
  function WorkStep(env: Env, w: Worker, s: Option<Session>, a: Action, now: int): (Worker, Option<Session>)
    requires Enabled(w, a)
  {
    match a
    case SpawnOk => (w.(point := Started), s)
    case SpawnFail => (w.(point := Exited), if s.None? then None else Some(SpawnFailRecord(s.value)))
    case Snapshot(suffix) =>
      if s.None? || s.value.phase != Calculating then (w.(point := Leaving), s)
      else (w.(point := Holding, job := Some(JobOf(s.value, suffix))), s)
    case Infer(replies) => (w.(point := Ready, replies := replies), s)
    case Commit =>
      (w.(point := Leaving),
       if s.None? then None else Some(CommitRecord(s.value, Published(env, w.job.value, w.replies), now)))
    case Exit => (w.(point := Exited), s)
  }

  function WorkReply(a: Action): Reply {
    match a
    case SpawnOk => Submitted(Calculating, 0)
    case SpawnFail => Failed(Internal)
    case _ => Silent
  }

  /** A step that is not enabled is never taken, so it changes nothing. */
  function WorkerStep(env: Env, sv: Server, thread: nat, a: Action, now: int): (Server, Reply) {
    if thread !in sv.workers || !Enabled(sv.workers[thread], a) then (sv, Silent)
    else
      var w := sv.workers[thread];
      var (w', s') := WorkStep(env, w, Get(sv.sessions, w.session), a, now);
      (sv.(workers := sv.workers[thread := w'],
           sessions := if s'.None? then sv.sessions else sv.sessions[w.session := s'.value],
           active := if w'.point == Exited then sv.active - 1 else sv.active),
       WorkReply(a))
  }

  // ----- any step, any run -----

  function Apply(env: Env, sv: Server, l: Label, now: int): (Server, Reply) {
    match l
    case Create(policy, nonce, mint) => CreateStep(env, sv, policy, nonce, mint, now)
    case Join(invitation, nonce, newToken) => JoinStep(env, sv, invitation, nonce, newToken, now)
    case Accept(token) => AcceptStep(env, sv, token, now)
    case Submit(token, payload, thread) => SubmitStep(env, sv, token, payload, thread, now)
    case GetResult(token) => ResultStep(env, sv, token, now)
    case GetStatus(token) => StatusStep(env, sv, token, now)
    case Work(thread, action) => WorkerStep(env, sv, thread, action, now)
  }

  /** A scheduled step: what happens and what the clock reads. */
  datatype Event = Event(step: Label, now: int)

  function Next(env: Env, sv: Server, e: Event): Server {
    Apply(env, sv, e.step, e.now).0
  }

  /** Every step of the schedule respects freshness. */
  predicate Valid(env: Env, sv: Server, run: seq<Event>)
    decreases |run|
  {
    run != [] ==> Fresh(sv, run[0].step) && Valid(env, Next(env, sv, run[0]), run[1..])
  }

  function After(env: Env, sv: Server, run: seq<Event>): Server
    decreases |run|
  {
    if run == [] then sv else After(env, Next(env, sv, run[0]), run[1..])
  }
}
