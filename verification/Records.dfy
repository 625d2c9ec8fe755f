/** The records of the session manager, its configuration, and the library code it treats as a black box. */
module Records {
  import opened Wrappers
  import opened JsonValues
  import opened SchemaValidation

  // ----- constants -----

  /** Clock readings and durations are counted in quarter nanoseconds. */
  const SECOND: int := 4_000_000_000
  const DEFAULT_TIMEOUT_SECONDS: int := 300
  const MAX_TIMEOUT_SECONDS: int := 86400
  const MAX_PARTICIPANTS: int := 100
  const MAX_INPUT_BYTES: int := 65536
  const MAX_OPEN_SECONDS: int := 600
  const MAX_SEALED_SECONDS: int := 600
  const MAX_LLM_RETRIES: nat := 3

  // ----- environment -----

  /** JSON parsing and printing, regular expressions and fence stripping: deterministic, otherwise unknown. */
  datatype Library = Library(
    parse: string -> Option<Json>,
    dump: Json -> string,
    matches: Matcher,
    isUuidV4: string -> bool,
    strip: string -> string)

  datatype PolicyDefinition = PolicyDefinition(promptTemplate: string, inputSchema: string, outputSchema: string)

  datatype Options = Options(terminalRetentionSeconds: int, maxCalculatingSeconds: int, maxSessions: int)

  datatype Env = Env(lib: Library, registry: map<string, PolicyDefinition>, options: Options, hasEngine: bool)

  /** Text and schema both parse and the value is accepted. */
  predicate ValidText(lib: Library, text: string, schemaText: string) {
    match (lib.parse(text), lib.parse(schemaText))
    case (Some(value), Some(schema)) => ValidateNode(lib.matches, value, schema) == Ok
    case _ => false
  }

  // ----- sessions -----

  datatype Phase = Open | Sealed | Calculating | Closed | Aborted

  datatype ErrorCode = Unspecified | JoinTimeout | InputTimeout | LlmGenerationFailed

  datatype SessionPolicy = SessionPolicy(
    policyClass: string,
    inputSchema: string,
    outputSchema: string,
    expected: int,
    timeoutSeconds: int,
    sdpSignature: string,
    signatureKeyId: string)

  datatype Participant = Participant(
    token: string, accepted: bool, inputJson: string, submitted: bool, joinIndex: nat)

  datatype Session = Session(
    id: string,
    phase: Phase,
    policy: SessionPolicy,
    policyDef: PolicyDefinition,
    participants: map<string, Participant>,
    resultJson: string,
    error: ErrorCode,
    enteredAt: int,
    timeout: int,
    invitation: string,
    tokens: seq<string>,
    nonceToToken: map<string, string>,
    creatorNonce: string)

  // ----- replies -----

  datatype Status = InvalidArgument | PermissionDenied | FailedPrecondition | ResourceExhausted | Internal

  datatype Reply =
    | Failed(status: Status)
    | Created(invitation: string, phase: Phase, token: string)
    | Joined(phase: Phase, policy: SessionPolicy, token: string)
    | Accepted(phase: Phase)
    | Submitted(phase: Phase, remaining: int)
    | Dispatched  // last input stored; the caller is answered once the worker is spawned
    | Outcome(phase: Phase, resultJson: string, error: ErrorCode)
    | Progress(phase: Phase, joined: nat, accepted: nat, inputs: nat)
    | Silent  // a worker step, nobody is answered
}
