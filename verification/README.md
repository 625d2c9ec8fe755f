# ztab: the session protocol, verified

ztab brokers multi-agent sessions inside a trusted execution environment. Agents
create a session, join it with an invitation, accept its policy and submit one
private JSON input each; a detached worker then asks a language model for one
result that every participant can fetch. This project models the session
manager (`tee/session_manager.cc`), the key-set cache of the attestation verifier
(`agent/ita_verifier.py`), the backend-channel cache of the agent
(`agent/mcp_server.py`) and the ALPN callback of the TLS proxy
(`tee/tls_proxy.cc`), and proves what they keep in every run.

## How the session manager is modelled

- `Records.dfy`, `SessionRules.dfy`: the records, and what each operation does to
  one session record.
- `Server.dfy`: the whole server as a value and `Apply`, one function for every
  request and worker step. A run is any sequence of steps, so timeouts, sweeps,
  retries, spawn failures and late workers fall anywhere between a worker's
  snapshot, its unlocked model call and its commit. `minted` holds every random
  value handed out so far; `workers` remembers every thread, exited ones included.
- `SessionManager.dfy`: the class with the source's tables and counter. Each
  method is one critical section, written with the source's branches and loops,
  and is proved to perform exactly the step of the same name.
- `SessionInvariant.dfy`, `ServerInvariant.dfy`, `Sweeping.dfy`: the invariant and
  its preservation. `Runs.dfy`, `Guarantees.dfy`, `Settled.dfy`, `Replay.dfy`,
  `Isolation.dfy`, `Termination.dfy`, `Shutdown.dfy`: what follows for whole runs.
- `Deadlines.dfy`, `Answers.dfy`, `Delivery.dfy`: what every request and worker step
  does and answers, said a second time on the raw fields of the record, with the
  protocol's numbers written out and without the functions the steps are made of.
- `SchemaValidation.dfy`, `ClosedSchemas.dfy`, `Prompt.dfy`, `Rendering.dfy`,
  `JoinOrder.dfy`: the schema validator and the prompt builder.

Random tokens, clock readings, thread ids and the model's replies are parameters
of a step. Random tokens are assumed never to repeat (`Fresh`). The clock is not
assumed to be monotonic. JSON parsing and printing, regular expressions, the
UUID check and code-fence stripping are function-valued fields of `Library`, so
every theorem holds for any deterministic choice of them.

Where comments and code disagree the model follows the code: SEALED is capped at
600 s (tee/session_manager.cc:323-327, against the summary at 68-71), CALCULATING
does time out (tee/session_manager.cc:328-335, against tee/session_manager.h:43-46),
and exhausted retries abort with LLM_GENERATION_FAILED (tee/session_manager.cc:1028-1029,
against docs/design.md:641-643).

Five properties one would expect are false of the code. Each has a failing input and
its exact condition:

- Cached channels are not always flushed when the backend file changes: an unparsable
  file between two readable ones leaves a channel to the old host in service, and every
  further lookup on the unchanged file goes on using it (`ChannelCache.StaleChannelSurvives`).
  Lookups are fresh exactly when a configuration is in force or nothing is cached, and no
  cached channel differs from its entry in that configuration
  (`ChannelCache.NextLookupFreshIff`, `ChannelCache.StaysFreshIff`).
- A readable backend file is not always loaded: one stamped with the epoch is taken for
  the file already seen when nothing has been loaded before
  (`ChannelCache.EpochFileIsOverlooked`, `ChannelCache.LoadedIsCurrentIff`).
- The error of an ABORTED session can still change: a failed thread creation that is
  reported after the session timed out replaces LLM_GENERATION_FAILED by an unspecified
  error (`Settled.LateFailureIsSeen`, `Settled.FrozenIff`). The same path leaves the
  entry time of the phase alone (`Settled.EntryTime`).
- Refused joins are not all alike: a malformed nonce tells a live invitation from an
  unknown one (`Guarantees.MalformedNonceReveals`, `Guarantees.RefusedJoinsLookAlike`).
- Zeroing the key-set timestamp invalidates the cache only for a clock past the TTL
  (`Jwks.EarlyMiss`, `Jwks.AlwaysFreshIff`), which Unix time is.

## Model

| member | source | states |
|---|---|---|
| Sweeping.RunKeeps | tee/session_manager.cc:280-1083 | the server invariant (records, phases, indexes, workers, capacity) holds after every run, for every schedule, clock and payload |
| Sweeping.StepKeeps | tee/session_manager.cc:463-1083 | every request and every worker step, enabled or not, keeps the invariant |
| Guarantees.PhaseInvariant | tee/session_manager.cc:309-365 | in every reachable state the phase, and for ABORTED the error code, fixes exactly what has been joined, accepted and submitted, so no transition is ever lost |
| Guarantees.CountersFitPhase | tee/session_manager.cc:1069-1082 | the progress counters never contradict the phase: SEALED misses an input, CALCULATING and CLOSED miss none, OPEN has none |
| Guarantees.IndexCoherence | tee/session_manager.cc:597-607 | each reverse index maps a key to a session if and only if that live session owns the key |
| Guarantees.RosterInJoinOrder | tee/session_manager.cc:669-671 | the i-th listed token is the one participant with join index i, and the creator has accepted |
| Guarantees.Capacity | tee/session_manager.cc:471-493 | the token index has exactly one entry per participant of a live session, at most 100 x max_sessions, and there are at most max_sessions sessions |
| Guarantees.WorkerAccounting | tee/session_manager.cc:829-891 | the thread counter is the number of threads not yet gone, every CALCULATING session has an unfinished worker, and no session ever gets two workers |
| Guarantees.ShutdownIsSafe | tee/session_manager.cc:280-290 | the destructor's wait ends if and only if no worker step is possible any more |
| Shutdown.WaitEnds | tee/session_manager.cc:280-290 | once requests stop, every schedule of worker steps takes at most five per counted worker, and stops only with the counter at zero |
| Shutdown.CanDrain | tee/session_manager.cc:280-290 | from every consistent state some schedule of at most five steps per counted worker brings the counter to zero |
| Shutdown.FiveStepsPerDispatch | tee/session_manager.cc:829-1035 | over any run from the start, workers take at most five steps per dispatched submission |
| Guarantees.SnapshotConsistency | tee/session_manager.cc:893-955 | as long as the record exists, the prompt and schema a worker carries equal those rebuilt from the current record with the same suffix |
| Guarantees.ResultProvenance | tee/session_manager.cc:958-1026 | a CLOSED result is the first passing reply, out of at most three, to the prompt built from the session's final inputs |
| Settled.SettledStep | tee/session_manager.cc:855-1035 | no step of any kind changes a CLOSED or ABORTED record that survives it, except that the failed spawn of its own pending thread sets the error to unspecified |
| Settled.SettledRun | tee/session_manager.cc:855-1035 | the same over every run: the record is identical, up to that error code when such a failure occurs in the run |
| Settled.FrozenIff | tee/session_manager.cc:855-871 | a settled record is the same in every future until eviction if and only if its thread is past creation or its error is already unspecified |
| Settled.VerdictStands | tee/session_manager.cc:1038-1058 | once one participant is told CLOSED or ABORTED, every later answer to any participant is the same, up to that error code, until eviction and then refusal |
| Settled.EntryTime | tee/session_manager.cc:309-365 | a record's entry time moves to the clock of a step exactly when the step changes the phase and is not a failed spawn |
| Settled.LateFailureIsSeen | tee/session_manager.cc:855-871 | after any dispatched submission, a late poll reports LLM_GENERATION_FAILED and the failed spawn then turns the answer into an unspecified error |
| Settled.LateFailureIsReachable | tee/session_manager.cc:463-871 | four requests on an empty server lead to such a dispatched submission |
| Guarantees.StoredDataIsValid | tee/session_manager.cc:501-522 | stored inputs conform to the registry's own input schema whatever the client sent; CLOSED results are non-empty and conform to the output schema |
| Guarantees.PromptDeterminesInputs | tee/session_manager.cc:893-951 | two workers of live sessions in reachable states, each with the suffix it drew, carry the same prompt from one template only if the sessions had the same ordered inputs and the suffixes coincide, when canonical JSON and suffixes are one line |
| Guarantees.CreatedTokensWork | tee/session_manager.cc:597-617 | the invitation and creator token in a creation reply, fresh or replayed, open the same live session in the phase reported |
| Guarantees.JoinedTokenWorks | tee/session_manager.cc:665-688 | the token in a join reply opens the session of the invitation |
| Guarantees.AccessEnforcesDeadlines | tee/session_manager.cc:309-365 | after any request made with a session's names and after any sweep, a session still running is within 600 s and its own timeout (OPEN, SEALED) or the calculating cap |
| Guarantees.RefusedJoinsLookAlike | tee/session_manager.cc:622-658 | two refused joins with one nonce get the same answer if and only if the nonce is absent or a UUID, or the invitations are both live or both not |
| Guarantees.MalformedNonceReveals | tee/session_manager.cc:622-642 | with a malformed nonce a live invitation is refused as an invalid argument and an unknown one as permission denied |
| Deadlines.PollLaw | tee/session_manager.cc:309-365 | a poll leaves an OPEN or SEALED session alone if and only if it is within 600 s and its own timeout, a CALCULATING one if and only if it is within its cap whatever its timeout, and otherwise aborts it with the error of its phase; the result and the three progress counts answered are the record's |
| Deadlines.SweepLaw | tee/session_manager.cc:420-461 | a sweep keeps exactly the settled sessions within retention, no stalled aborts, and the running ones in time (a CALCULATING one past its cap is kept as aborted), each as the next access would find it |
| Deadlines.SurvivesIff | tee/session_manager.cc:420-461 | over any run a settled session stays if and only if no creation comes after its retention time |
| Deadlines.ResultIsAvailable | tee/session_manager.cc:1038-1058 | after any run every participant of a CLOSED session is told its result, until a creation comes after the retention time, and is then refused |
| Answers.StrangerLaw | tee/session_manager.cc:378-402 | a request with a name that opens no live session changes nothing and gets PERMISSION_DENIED |
| Answers.CreateLaw | tee/session_manager.cc:463-617 | a creation with an unclaimed nonce is refused, capacity first, or enters one OPEN session with the registry's schemas, the creator joined and accepted, and the timeout asked for, or 300 s |
| Answers.JoinLaw | tee/session_manager.cc:620-689 | a join is granted if and only if the nonce is readable and either known or there is room in an OPEN session in time; record, index and reply, policy included, in each case |
| Answers.AcceptLaw | tee/session_manager.cc:691-735 | an acceptance counts once while OPEN and seals, and answers SEALED, exactly when all have joined and every other participant has accepted |
| Answers.FirstSubmitLaw | tee/session_manager.cc:777-844 | a first payload of at most 65536 bytes that the registry's schema accepts is stored in canonical form; the reply is the number of participants still missing, and the worker is counted exactly when nobody is |
| Answers.RepeatSubmitLaw | tee/session_manager.cc:755-786 | a repeated payload changes nothing but a deadline and is answered by comparison with the stored text, with the number still missing while SEALED |
| Delivery.SnapshotLaw | tee/session_manager.cc:893-955 | a worker carries the registry's template filled with the inputs in join order and the registry's output schema, exactly when the session is CALCULATING |
| Delivery.PublishedComesOut | tee/session_manager.cc:958-999 | of three attempts the first usable reply comes out, and nothing exactly without an engine, without a usable reply, or when the first usable one is empty |
| Delivery.CommitLaw | tee/session_manager.cc:1001-1035 | a commit closes a waiting session with the text that came out, aborts it when none did, and leaves any other session alone |
| Delivery.WorkerDelivers | tee/session_manager.cc:850-1035 | a worker whose session waits takes it from its inputs to CLOSED with the first usable reply, or to ABORTED, and changes nothing else |
| Runs.StepMovesRecord | tee/session_manager.cc:309-1035 | each step moves a live record along at most one edge of the state diagram and never undoes a join, acceptance, input, nonce or result |
| Runs.RunMovesForward | tee/session_manager.cc:309-1035 | over any run a surviving record only grows and moves forward; CLOSED records are frozen |
| Runs.Agreement | tee/session_manager.cc:1038-1058 | once one participant is told CLOSED with a result, every later answer to any participant is that result until eviction, and then refusal |
| Runs.TokensNeverMove | tee/session_manager.cc:378-402 | over any run a participant token and an invitation open exactly the session they were made for, and nothing once it is evicted |
| Runs.AuthenticateIff | tee/session_manager.cc:378-402 | authentication yields a session if and only if the token is on that live session's roster, and fails only for unindexed tokens |
| Sweeping.SweepRestrictsIndexes | tee/session_manager.cc:446-456 | after a sweep all three indexes are the old ones restricted to the survivors |
| Sweeping.SweepIdempotent | tee/session_manager.cc:420-461 | a second sweep at the same time changes nothing |
| SessionManagers.SessionManager.SweepTerminalSessions | tee/session_manager.cc:420-461 | the erase-while-iterating loop, in any visiting order, leaves exactly the retained sessions, said on their raw fields, each as the next access would find it |
| SessionManagers.SessionManager.VisitOne | tee/session_manager.cc:424-459 | one turn of the sweep keeps a retained record or erases it with its index entries |
| SessionManagers.SessionManager.CheckAndEnforceTimeout | tee/session_manager.cc:309-365 | aborts exactly the record past the deadline of its phase, with the error of its phase |
| SessionManagers.SessionManager.LookUp | tee/session_manager.cc:378-402 | the three lookups of authentication |
| SessionManagers.SessionManager.CreateSession | tee/session_manager.cc:463-618 | performs the creation step: sweep, capacity, validation, idempotency, registration; keeps the invariant |
| SessionManagers.SessionManager.JoinSession | tee/session_manager.cc:620-689 | performs the join step and keeps the invariant |
| SessionManagers.SessionManager.AcceptPolicy | tee/session_manager.cc:691-735 | performs the acceptance step, sealing when all have joined and accepted; keeps the invariant |
| SessionManagers.SessionManager.SubmitInput | tee/session_manager.cc:737-845 | performs the locked part of a submission, counting a worker exactly when the last input is stored; keeps the invariant |
| SessionManagers.SessionManager.SpawnSucceeded | tee/session_manager.cc:850-878 | performs the step that creates the thread and answers the submitter; keeps the invariant |
| SessionManagers.SessionManager.SpawnFailed | tee/session_manager.cc:855-871 | performs the spawn-failure step: count returned, whatever record is there aborted; keeps the invariant |
| SessionManagers.SessionManager.TakeSnapshot | tee/session_manager.cc:893-955 | performs the snapshot step, yielding a job exactly when the session is still CALCULATING |
| SessionManagers.SessionManager.Generate | tee/session_manager.cc:958-999 | performs the unlocked step and returns what comes out of three attempts |
| SessionManagers.SessionManager.CommitResult | tee/session_manager.cc:1001-1035 | performs the commit step: publish, abort, or discard when the session has moved on |
| SessionManagers.SessionManager.LeaveWorker | tee/session_manager.cc:884-891 | gives the count back on the way out |
| SessionManagers.SessionManager.MayDestroy | tee/session_manager.cc:280-290 | the destructor's condition holds if and only if every worker has exited |
| SessionManagers.SessionManager.GetResult | tee/session_manager.cc:1038-1058 | performs the result step |
| SessionManagers.SessionManager.GetSessionStatus | tee/session_manager.cc:1060-1083 | performs the status step, counting acceptances and inputs |
| SessionManagers.RunAttempts | tee/session_manager.cc:961-999 | the retry loop returns the first usable reply of three unless it is empty, and nothing exactly in the cases named by `Delivery.ComesOut` |
| SessionManagers.ReceiveInput | tee/session_manager.cc:755-844 | the record after a submission, and the reply, in every phase |
| SessionManagers.ReceiveJoin | tee/session_manager.cc:636-688 | the record after a join, and the reply |
| SessionManagers.CountFlagged | tee/session_manager.cc:819-824 | the counting loop returns the number of participants with the flag |
| SessionManagers.EveryoneAccepted | tee/session_manager.cc:716-723 | the loop with early exit decides whether all have accepted |
| Replay.JoinReplay | tee/session_manager.cc:636-652 | a repeated join with the same nonce, any time later and in any phase, returns the same token and changes the server exactly as a status poll would, until eviction and then refusal without effect |
| Replay.AcceptReplay | tee/session_manager.cc:700-705 | a repeated acceptance only polls, until eviction and then refusal without effect |
| Replay.SubmitReplay | tee/session_manager.cc:755-786 | any later payload only polls, and is accepted if and only if its canonical form is the stored one; refused without effect after eviction |
| Replay.CreateReplay | tee/session_manager.cc:463-617 | as long as its session lives, a creation replay changes nothing beyond the sweep and returns the original tokens if and only if the server is below capacity and all policy fields but the schemas agree after timeout normalisation; after eviction it never returns the old names, and with the nonce unclaimed it is answered as a creation without one |
| Isolation.StepIsLocal | tee/session_manager.cc:378-402 | the effect of any step on a session, and the reply to its own requests, are functions of that session's record and workers alone |
| Isolation.OthersUntouched | tee/session_manager.cc:620-1083 | a request or worker step of one session leaves every other session and its workers unchanged |
| Isolation.Noninterference | tee/session_manager.cc:420-1083 | two runs that agree on one session's own steps, the clock and when sweeps happen give it the same history of states and replies |
| Isolation.PayloadsDoNotLeak | tee/session_manager.cc:737-845 | changing what another session's participant submits changes nothing here, then or later |
| Termination.StepDrops | tee/session_manager.cc:654-1034 | missing joins, acceptances, inputs and phases plus pending spawns never rise and strictly drop with every change of the record |
| Termination.LinearLifetime | tee/session_manager.cc:565-1034 | from creation on a session's record changes at most 3n + 1 times for n expected participants, however many requests arrive |
| SchemaValidation.ValidateIffConforms | tee/session_manager.cc:159-267 | for every schema and every value, the validator accepts if and only if every value/schema pair reached along a common path passes its local check, keywords read as the library reads them |
| SchemaValidation.ReadableSchemasNeverThrow | tee/session_manager.cc:159-267 | a schema whose keywords can be read at every level is never found malformed |
| SchemaValidation.RequiredNamesIff | tee/session_manager.cc:211-218 | a list of required names is satisfied if and only if every name is a member |
| SchemaValidation.ItemBoundsIff | tee/session_manager.cc:194-201 | `minItems` and `maxItems` bound the number of items inclusively |
| ClosedSchemas.AcceptedPathsAreDeclared | tee/session_manager.cc:159-267 | for a schema closed at every level, every path of an accepted value is a path of the schema |
| ClosedSchemas.AcceptedDepthIsBounded | tee/session_manager.cc:159-267 | for such a schema an accepted value is no deeper than the schema |
| Prompt.BlocksInjective | tee/session_manager.cc:927-939 | the framed text determines the ordered list of inputs, for any number of participants, when no input holds its own closing line |
| Prompt.MarkerFreeInputsAreUnforged | tee/session_manager.cc:925-927 | inputs without their END marker meet that condition |
| Prompt.SingleLineInputsAreUnforged | tee/session_manager.cc:816-817 | so do inputs without a raw newline |
| Prompt.SuffixFreeInputsAreUnforged | tee/session_manager.cc:925-939 | so do inputs that do not hold the suffix: nobody can forge a closing without knowing it |
| Prompt.FrameOf | tee/session_manager.cc:931-937 | the text around one participant's input |
| Prompt.ForgedInputsCollide | tee/session_manager.cc:925-939 | without the condition two different input lists frame to the same text |
| Prompt.RenderReplaces | tee/session_manager.cc:940-946 | in any template, either placeholder is replaced verbatim in one pass that does not rescan what it inserted |
| Prompt.RenderKeepsText | tee/session_manager.cc:940-946 | text without a placeholder is left as it is |
| Rendering.PromptInjective | tee/session_manager.cc:927-946 | for any template that holds the inputs placeholder, the whole rendered prompt determines the ordered inputs of unforged lists and the suffix, whatever the two suffixes, the two participant counts and the widths of their numerals |
| Prompt.DecimalValue | tee/session_manager.cc:933-944 | the printed participant number and count read back as the number, without a leading zero |
| JoinOrder.SortedIsJoinOrder | tee/session_manager.cc:911-923 | whatever order the hash map enumerates, sorting by join index gives the join order |
| JoinOrder.KthBlockIsKthJoiner | tee/session_manager.cc:929-939 | block k + 1 frames the input of the k-th joiner, the creator first |
| JoinOrder.BuildJob | tee/session_manager.cc:911-951 | the collecting, sorting and framing loops build the prompt of the record in join order |
| Jwks.KeysAreFresh | agent/ita_verifier.py:541-618 | in every interleaving, searched keys were fetched at most the TTL before the caller's clock reading, and after a key-id miss they were fetched after that miss's invalidation |
| Jwks.RunKeeps | agent/ita_verifier.py:541-566 | the cache, lock and thread invariant behind it holds after every interleaving |
| Jwks.AlwaysFreshIff | agent/ita_verifier.py:541-618 | all interleavings search fresh keys if and only if the clock starts past the TTL |
| Jwks.EarlyMiss | agent/ita_verifier.py:609-611 | for an earlier clock, a run in which a key-id miss is answered from the cache it meant to invalidate |
| Jwks.FetchesAreApart | agent/ita_verifier.py:551-566 | in every interleaving, two fetches without a forced refresh between them have clock readings more than the TTL apart, so threads that find one stale cache cause one fetch |
| Jwks.LockIsGivenBack | agent/ita_verifier.py:551-566 | in every interleaving and whatever its fetch does, the thread inside the lock gives it back within five steps of its own |
| ChannelCache.CachedLookupIsFresh | agent/mcp_server.py:401-422 | after any run that loads no unparsable file over cached channels, a lookup resolves in the configuration on disk unless the file is overlooked, yields an open channel built from that entry, and no channel is open but the cached ones |
| ChannelCache.LoadedIsCurrentIff | agent/mcp_server.py:119-141 | the configuration in force is the one on disk if and only if the file is not epoch-stamped and the first to be seen |
| ChannelCache.EpochFileIsOverlooked | agent/mcp_server.py:127 | such a file is never found at the start, whatever it says, and is once another file was loaded |
| ChannelCache.NextLookupFreshIff | agent/mcp_server.py:119-167 | whatever readable file the next lookup sees, changed or not, a served channel is built from its entry, if and only if a configuration is in force or nothing is cached, and no cached channel differs from its entry in that configuration |
| ChannelCache.StaysFreshIff | agent/mcp_server.py:119-436 | in every state any run reaches, every lookup after every future that loads no unparsable file over cached channels is fresh, under exactly the same two conditions |
| ChannelCache.NoChannelLeaks | agent/mcp_server.py:127-140 | after any run at all, the open channels and the cached backends correspond one to one |
| ChannelCache.LookupLaw | agent/mcp_server.py:119-167 | which configuration a lookup works with for every kind of file, and that it picks the first entry with the requested or default id |
| ChannelCache.ConnectLaw | agent/mcp_server.py:401-422 | a connecting lookup ends with a channel for its backend, the cached one or a new one built from its entry, and touches no other |
| ChannelCache.EvictLaw | agent/mcp_server.py:425-436 | after an eviction the channel is closed and gone, no other is touched, and the next connecting lookup opens a different one |
| ChannelCache.StaleChannelSurvives | agent/mcp_server.py:127-141 | otherwise a channel to a replaced backend stays in service, also for every further lookup on the unchanged file |
| ChannelCache.Backends.GetBackends | agent/mcp_server.py:119-141 | reloads, flushes and closes exactly as the state function says |
| ChannelCache.Backends.CloseAll | agent/mcp_server.py:133-138 | closes exactly the cached channels |
| ChannelCache.Backends.GetBackendInfo | agent/mcp_server.py:144-167 | the first entry with the requested or default id, or an error |
| ChannelCache.Backends.GetCachedStub | agent/mcp_server.py:401-422 | serves the cached channel or opens and caches one |
| ChannelCache.Backends.EvictBackend | agent/mcp_server.py:425-436 | closes and drops the one channel of the backend |
| Alpn.Select | tee/tls_proxy.cc:186-203 | the buffer walk, on 32-bit offsets, reads in bounds, does not wrap, terminates and computes the scan |
| Alpn.ScanIffFirstH2 | tee/tls_proxy.cc:186-203 | for every buffer the scan yields an offset if and only if complete names other than "h2" lead to an "h2" exactly there |
| Alpn.SelectsIffOffered | tee/tls_proxy.cc:184-203 | for every list serialised per section 3.1 of RFC 7301, selection succeeds if and only if "h2" is in it |
| Alpn.SelectsFirstOffered | tee/tls_proxy.cc:184-203 | the name selected is the first "h2" of the list, at the offset where it starts |

## Left out

- The language model, BoringSSL, X.509, gRPC, curl, the command line, the MCP request loop and the rest of the TLS proxy: library and I/O wrappers.
- The individual attestation claim checks, the creator-token check and policy file loading: each is settled by one branch.
- The JSON parser, printer, regular expressions, UUID pattern and fence stripping: kept abstract, so nothing is claimed about over-deep JSON being rejected.
- Schemas with a keyword the library refuses to convert (it throws): they get the verdict `Malformed`, and a text checked against one counts as rejected. A `properties` that is not an object, and a float bound outside the 32-bit range (undefined behaviour in the source), are outside the model.
- Integer widths: sizes and counters are unbounded integers; all of them stay far below 2^31 in the source. Array bounds in schemas (converted to 32 bits) and the ALPN offsets are modelled with their width.
- Time: the several clock readings inside one critical section are one reading of the step.
- Token collisions: randomness is modelled as never repeating.
- Error detail strings, log lines and the role field of a join: they influence no decision.
- Session lifetime in seconds: not bounded, because a commit does not check the timeout; only the number of changes is.
- The blocking wait of the destructor and the OS scheduler: modelled by the condition they wait for, not as code that blocks.
- The worker body is split into one method per critical section; its sequential composition is the order of program points in `Server.dfy`.
- The sort in the snapshot is modelled as an insertion sort; only its sortedness is used.
- Jwks threads are a state machine over values, one step per dictionary access or lock operation, not a class; a fetch is one step.
- Key sets are known by when they were fetched; their contents and the key search are a free choice of the step.
- Backend entries carry their settings as one opaque text, and a failed connection is a parameter.
