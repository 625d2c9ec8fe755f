/** What each operation does to one session record, the record being the only state it sees. */
module SessionRules {
  import opened Wrappers
  import opened Records
  import opened Prompt

  predicate Terminal(s: Session) {
    s.phase == Closed || s.phase == Aborted
  }

  predicate Full(s: Session) {
    |s.participants| == s.policy.expected
  }

  function AcceptedTokens(s: Session): set<string> {
    set t | t in s.participants && s.participants[t].accepted
  }

  function SubmittedTokens(s: Session): set<string> {
    set t | t in s.participants && s.participants[t].submitted
  }

  predicate AllAccepted(s: Session) {
    forall t | t in s.participants :: s.participants[t].accepted
  }

  predicate AllSubmitted(s: Session) {
    forall t | t in s.participants :: s.participants[t].submitted
  }

  predicate NoneSubmitted(s: Session) {
    forall t | t in s.participants :: !s.participants[t].submitted
  }

  function RemainingInputs(s: Session): int {
    s.policy.expected - |SubmittedTokens(s)|
  }

  // ----- lazy timeouts -----

  function Min(a: int, b: int): int { if a < b then a else b }

  function EffectiveTimeout(options: Options, s: Session): int {
    match s.phase
    case Open => Min(s.timeout, MAX_OPEN_SECONDS * SECOND)
    case Sealed => Min(s.timeout, MAX_SEALED_SECONDS * SECOND)
    case Calculating => options.maxCalculatingSeconds * SECOND
    case _ => s.timeout
  }

  function TimeoutError(phase: Phase): ErrorCode {
    match phase
    case Open => JoinTimeout
    case Sealed => InputTimeout
    case Calculating => LlmGenerationFailed
    case _ => Unspecified
  }

  predicate Overdue(options: Options, s: Session, now: int) {
    !Terminal(s) && now - s.enteredAt > EffectiveTimeout(options, s)
  }

  /** The record after its timeout has been checked. */
  function Enforce(options: Options, s: Session, now: int): Session {
    if Overdue(options, s, now)
    then s.(phase := Aborted, error := TimeoutError(s.phase), enteredAt := now)
    else s
  }

  /** A terminal record the sweep removes. */
  predicate Evictable(options: Options, s: Session, now: int) {
    && Terminal(s)
    && (|| (s.phase == Aborted && (s.error == JoinTimeout || s.error == InputTimeout))
        || now - s.enteredAt > options.terminalRetentionSeconds * SECOND)
  }

  // ----- creation -----

  function NormalTimeout(seconds: int): int {
    if seconds > 0 then seconds else DEFAULT_TIMEOUT_SECONDS
  }

  function NewSession(def: PolicyDefinition, policy: SessionPolicy, nonce: string,
                      id: string, creator: string, invitation: string, now: int): Session
  {
    var seconds := NormalTimeout(policy.timeoutSeconds);
    Session(id, Open,
            policy.(inputSchema := def.inputSchema, outputSchema := def.outputSchema, timeoutSeconds := seconds),
            def, map[creator := Participant(creator, true, "", false, 0)], "", Unspecified, now,
            seconds * SECOND, invitation, [creator], map[], nonce)
  }

  // ----- requests on an existing session -----

  function AddParticipant(s: Session, nonce: string, token: string): Session {
    s.(participants := s.participants[token := Participant(token, false, "", false, |s.participants|)],
       tokens := s.tokens + [token],
       nonceToToken := if nonce == "" then s.nonceToToken else s.nonceToToken[nonce := token])
  }

  function JoinRecord(env: Env, before: Session, nonce: string, token: string, now: int): (Session, Reply) {
    var s := Enforce(env.options, before, now);
    if nonce != "" && !env.lib.isUuidV4(nonce) then (s, Failed(InvalidArgument))
    else if nonce != "" && nonce in s.nonceToToken then (s, Joined(s.phase, s.policy, s.nonceToToken[nonce]))
    else if s.phase != Open then (s, Failed(PermissionDenied))
    else if |s.participants| >= s.policy.expected then (s, Failed(PermissionDenied))
    else (AddParticipant(s, nonce, token), Joined(s.phase, s.policy, token))
  }

  function AcceptRecord(env: Env, before: Session, token: string, now: int): (Session, Reply)
    requires token in before.participants
  {
    var s := Enforce(env.options, before, now);
    if s.participants[token].accepted then (s, Accepted(s.phase))
    else if s.phase != Open then (s, Failed(FailedPrecondition))
    else
      var marked := MarkAccepted(s, token);
      if Full(marked) && AllAccepted(marked)
      then (marked.(phase := Sealed, enteredAt := now), Accepted(Sealed))
      else (marked, Accepted(Open))
  }

  function MarkAccepted(s: Session, token: string): Session
    requires token in s.participants
  {
    s.(participants := s.participants[token := s.participants[token].(accepted := true)])
  }

  /** Why a repeated payload is refused, if it is. */
  function RetryProblem(lib: Library, retry: string, stored: string): Option<Status> {
    if |retry| > MAX_INPUT_BYTES then Some(InvalidArgument)
    else match lib.parse(retry)
      case None => Some(InvalidArgument)
      case Some(value) => if lib.dump(value) != stored then Some(FailedPrecondition) else None
  }

  function InputSchemaOf(s: Session): string {
    if s.policy.inputSchema == "" then s.policyDef.inputSchema else s.policy.inputSchema
  }

  /** The canonical text to store for a first payload, or the reason to refuse it. */
  function Canonical(lib: Library, s: Session, payload: string): Option<string> {
    if |payload| > MAX_INPUT_BYTES then None
    else match lib.parse(payload)
      case None => None
      case Some(value) =>
        var text := lib.dump(value);
        if InputSchemaOf(s) != "" && !ValidText(lib, text, InputSchemaOf(s)) then None else Some(text)
  }

  function MarkSubmitted(s: Session, token: string, text: string): Session
    requires token in s.participants
  {
    s.(participants := s.participants[token := s.participants[token].(inputJson := text, submitted := true)])
  }

  function SubmitRecord(env: Env, before: Session, token: string, payload: string, now: int): (Session, Reply)
    requires token in before.participants
  {
    var s := Enforce(env.options, before, now);
    var p := s.participants[token];
    if p.submitted then
      match RetryProblem(env.lib, payload, p.inputJson)
      case Some(status) => (s, Failed(status))
      case None => (s, Submitted(s.phase, if s.phase == Sealed then RemainingInputs(s) else 0))
    else if s.phase != Sealed then (s, Failed(FailedPrecondition))
    else
      match Canonical(env.lib, s, payload)
      case None => (s, Failed(InvalidArgument))
      case Some(text) =>
        var marked := MarkSubmitted(s, token, text);
        if RemainingInputs(marked) == 0
        then (marked.(phase := Calculating, enteredAt := now), Dispatched)
        else (marked, Submitted(Sealed, RemainingInputs(marked)))
  }

  function ResultReply(s: Session): Reply {
    Outcome(s.phase,
            if s.phase == Closed then s.resultJson else "",
            if s.phase == Aborted then s.error else Unspecified)
  }

  function ProgressReply(s: Session): Reply {
    Progress(s.phase, |s.participants|, |AcceptedTokens(s)|, |SubmittedTokens(s)|)
  }

  // ----- the worker's view -----

  /** What a worker carries out of the locked snapshot. */
  datatype Job = Job(prompt: string, outputSchema: string, suffix: string)

  /** Inputs in join order. */
  function OrderedInputs(s: Session): seq<string> {
    seq(|s.tokens|, i requires 0 <= i < |s.tokens| =>
      if s.tokens[i] in s.participants then s.participants[s.tokens[i]].inputJson else "")
  }

  function OutputSchemaOf(s: Session): string {
    if s.policy.outputSchema == "" then s.policyDef.outputSchema else s.policy.outputSchema
  }

  function JobOf(s: Session, suffix: string): Job {
    Job(Render(s.policyDef.promptTemplate, Decimal(|s.participants|), Blocks(1, OrderedInputs(s), suffix)),
        OutputSchemaOf(s), suffix)
  }

  predicate Passes(lib: Library, schema: string, raw: Option<string>) {
    raw.Some? && (schema != "" ==> ValidText(lib, lib.strip(raw.value), schema))
  }

  /** The stripped text of the first attempt that passes. */
  function FirstPassing(lib: Library, schema: string, replies: seq<Option<string>>): Option<string> {
    if replies == [] then None
    else if Passes(lib, schema, replies[0]) then Some(lib.strip(replies[0].value))
    else FirstPassing(lib, schema, replies[1..])
  }

  /** The text to publish, if there is an engine and some attempt passed with a non-empty text. */
  function Published(env: Env, job: Job, replies: seq<Option<string>>): Option<string> {
    if !env.hasEngine then None
    else
      var text := FirstPassing(env.lib, job.outputSchema, replies);
      if text == Some("") then None else text
  }

  function CommitRecord(s: Session, verdict: Option<string>, now: int): Session {
    if s.phase != Calculating then s
    else match verdict
      case Some(text) => s.(resultJson := text, phase := Closed, enteredAt := now)
      case None => s.(phase := Aborted, error := LlmGenerationFailed, enteredAt := now)
  }

  /** A failed spawn aborts whatever record is there, and leaves its entry time alone. */
  function SpawnFailRecord(s: Session): Session {
    s.(phase := Aborted, error := Unspecified)
  }
}
