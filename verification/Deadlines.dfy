/**
 Deadlines and retention, said on a record's own fields: when a poll aborts a
 session and when it must leave it alone, what a sweep keeps, and for how long a
 result can be fetched.
 */
module Deadlines {
  import opened Wrappers
  import opened Records
  import opened SessionRules
  import opened Server
  import opened SessionInvariant
  import opened ServerInvariant
  import opened Sweeping
  import opened Runs
  import opened Isolation
  import opened Settled

  /** OPEN and SEALED have ten minutes and their own timeout; CALCULATING has its cap, whatever the timeout. */
  predicate PastDeadline(options: Options, s: Session, now: int) {
    var age := now - s.enteredAt;
    match s.phase
    case Open => age > 600 * SECOND || age > s.timeout
    case Sealed => age > 600 * SECOND || age > s.timeout
    case Calculating => age > options.maxCalculatingSeconds * SECOND
    case Closed => false
    case Aborted => false
  }

  function TimedOut(s: Session, now: int): Session {
    var error := match s.phase
      case Open => JoinTimeout
      case Sealed => InputTimeout
      case _ => LlmGenerationFailed;
    s.(phase := Aborted, error := error, enteredAt := now)
  }

  /** The record as the next access finds it. */
  function Current(options: Options, s: Session, now: int): Session {
    if PastDeadline(options, s, now) then TimedOut(s, now) else s
  }

  lemma EnforceIsCurrent(options: Options, s: Session, now: int)
    ensures Enforce(options, s, now) == Current(options, s, now)
  {
  }

  // ----- polls -----

  /**
   A poll changes nothing up to the deadline of the phase and aborts the session
   after it; both polls answer what the record then says.
   */
  lemma PollLaw(env: Env, sv: Server, token: string, now: int, id: string)
    requires Inv(env, sv) && Authenticate(sv, token) == Some(id)
    ensures var s := sv.sessions[id];
            var past := PastDeadline(env.options, s, now);
            var (told, result) := ResultStep(env, sv, token, now);
            var (polled, status) := StatusStep(env, sv, token, now);
            && s.timeout == s.policy.timeoutSeconds * SECOND
            && told == polled == sv.(sessions := sv.sessions[id := Current(env.options, s, now)])
            && (told == sv <==> !past)
            && result == (if past then Outcome(Aborted, "", TimedOut(s, now).error)
                          else if s.phase == Closed then Outcome(Closed, s.resultJson, Unspecified)
                          else if s.phase == Aborted then Outcome(Aborted, "", s.error)
                          else Outcome(s.phase, "", Unspecified))
            && status == Progress(if past then Aborted else s.phase,
                                  |s.participants|,
                                  |set t | t in s.participants && s.participants[t].accepted|,
                                  |set t | t in s.participants && s.participants[t].submitted|)
  {
    hide Inv, RecordOk, Enforce, PastDeadline, TimedOut;
    var s := sv.sessions[id];
    EnforceIsCurrent(env.options, s, now);
    TimedOutIsAborted(env.options, s, now);
    TimeoutOfPolicy(env, sv, id);
    assert sv.sessions[id := s] == sv.sessions;
    var e := Current(env.options, s, now);
    assert AcceptedTokens(e) == set t | t in s.participants && s.participants[t].accepted;
    assert SubmittedTokens(e) == set t | t in s.participants && s.participants[t].submitted;
  }

  lemma TimedOutIsAborted(options: Options, s: Session, now: int)
    ensures var e := TimedOut(s, now);
            e.phase == Aborted && e.participants == s.participants && e.policy == s.policy
    ensures PastDeadline(options, s, now) ==> s.phase != Aborted && s.phase != Closed
  {
  }

  lemma TimeoutOfPolicy(env: Env, sv: Server, id: string)
    requires Inv(env, sv) && id in sv.sessions
    ensures sv.sessions[id].timeout == sv.sessions[id].policy.timeoutSeconds * SECOND
  {
    hide IndexesOk, WorkersOk, RosterOk, PhaseOk, InputOk, ResultOk;
    assert RecordOk(env, sv.sessions[id]);
  }

  // ----- sweeps -----

  /** What a sweep keeps: settled sessions for the retention time, stalled ones not at all, running ones in time. */
  predicate Retained(options: Options, s: Session, now: int) {
    var retention := options.terminalRetentionSeconds * SECOND;
    match s.phase
    case Closed => now - s.enteredAt <= retention
    case Aborted => s.error != JoinTimeout && s.error != InputTimeout && now - s.enteredAt <= retention
    case Open => !PastDeadline(options, s, now)
    case Sealed => !PastDeadline(options, s, now)
    case Calculating => PastDeadline(options, s, now) ==> retention >= 0
  }

  lemma SweptIff(options: Options, s: Session, now: int)
    ensures Swept(options, s, now) <==> !Retained(options, s, now)
  {
  }

  /** A sweep keeps exactly the retained sessions, each as the next access would find it. */
  lemma SweepLaw(env: Env, sv: Server, now: int)
    ensures Sweep(env.options, sv, now).sessions
            == map id | id in sv.sessions && Retained(env.options, sv.sessions[id], now)
                 :: Current(env.options, sv.sessions[id], now)
  {
    hide Sweep, Enforce, Current, Retained, Evictable;
    SweepParts(env.options, sv, now);
    forall id | id in sv.sessions
      ensures Swept(env.options, sv.sessions[id], now) <==> !Retained(env.options, sv.sessions[id], now)
      ensures Enforce(env.options, sv.sessions[id], now) == Current(env.options, sv.sessions[id], now)
    {
      SweptIff(env.options, sv.sessions[id], now);
      EnforceIsCurrent(env.options, sv.sessions[id], now);
    }
  }

  // ----- how long a result can be fetched -----

  /** CLOSED, or ABORTED after all inputs were in: kept for the retention time. */
  predicate Keeps(s: Session) {
    s.phase == Closed || (s.phase == Aborted && s.error != JoinTimeout && s.error != InputTimeout)
  }

  /** No creation of the run comes later than the retention time after `since`. */
  predicate WithinRetention(options: Options, since: int, run: seq<Event>) {
    forall i | 0 <= i < |run| && run[i].step.Create? :: run[i].now - since <= options.terminalRetentionSeconds * SECOND
  }

  lemma LocalSurvival(env: Env, v: View, l: Label, now: int)
    requires v.session.Some? && Keeps(v.session.value)
    ensures LocalNext(env, v, l, now).session.Some?
            <==> (l.Create? ==> now - v.session.value.enteredAt <= env.options.terminalRetentionSeconds * SECOND)
  {
    hide JoinRecord, AcceptRecord, SubmitRecord, Published, JobOf, CommitRecord, Enforce, Swept;
    SweptIff(env.options, v.session.value, now);
    CreateAddressesNobody(v, l);
  }

  lemma StepSurvival(env: Env, sv: Server, e: Event, id: string)
    requires Inv(env, sv) && Fresh(sv, e.step) && id in sv.sessions && Keeps(sv.sessions[id])
    ensures var next := Next(env, sv, e);
            && (id in next.sessions
                <==> (e.step.Create? ==> e.now - sv.sessions[id].enteredAt <= env.options.terminalRetentionSeconds * SECOND))
            && (id in next.sessions ==> Keeps(next.sessions[id]) && next.sessions[id].enteredAt == sv.sessions[id].enteredAt)
  {
    hide Inv, RecordOk, Apply, Fresh, LocalNext, FailedSpawn;
    RecordAndName(env, sv, id);
    StepIsLocal(env, sv, e.step, e.now, id);
    LocalSurvival(env, ViewOf(sv, id), e.step, e.now);
    if id in Next(env, sv, e).sessions {
      SettledStep(env, sv, e.step, e.now, id);
    }
  }

  /** A settled session is there after a run if and only if no creation came after its retention time. */
  lemma {:induction false} SurvivesIff(env: Env, sv: Server, run: seq<Event>, id: string)
    requires Inv(env, sv) && Valid(env, sv, run) && id in sv.sessions && Keeps(sv.sessions[id])
    ensures id in After(env, sv, run).sessions <==> WithinRetention(env.options, sv.sessions[id].enteredAt, run)
    decreases |run|
  {
    hide Inv, Apply, Fresh, Keeps;
    if run == [] {
    } else {
      var next := Next(env, sv, run[0]);
      var since := sv.sessions[id].enteredAt;
      StepKeeps(env, sv, run[0].step, run[0].now);
      StepSurvival(env, sv, run[0], id);
      assert run == [run[0]] + run[1..];
      if id in next.sessions {
        SurvivesIff(env, next, run[1..], id);
        assert WithinRetention(env.options, since, run) <==> WithinRetention(env.options, since, run[1..]) by {
          RetentionSplits(env.options, since, run);
        }
      } else {
        RecordAndName(env, sv, id);
        StepTokens(env, sv, run[0].step, run[0].now, id);
        RunKeepsAbsent(env, next, run[1..], id);
      }
    }
  }

  lemma RetentionSplits(options: Options, since: int, run: seq<Event>)
    requires run != []
    ensures WithinRetention(options, since, run)
            <==> WithinRetention(options, since, run[1..])
                 && (run[0].step.Create? ==> run[0].now - since <= options.terminalRetentionSeconds * SECOND)
  {
    assert run == [run[0]] + run[1..];
  }

  /**
   The result of a CLOSED session is what every participant is told, after any run and
   at any time, until a creation comes after the retention time; then they are refused.
   */
  lemma ResultIsAvailable(env: Env, sv: Server, run: seq<Event>, id: string, token: string, later: int)
    requires Inv(env, sv) && Valid(env, sv, run)
    requires id in sv.sessions && sv.sessions[id].phase == Closed && token in sv.sessions[id].participants
    ensures ResultStep(env, After(env, sv, run), token, later).1
            == if WithinRetention(env.options, sv.sessions[id].enteredAt, run)
               then Outcome(Closed, sv.sessions[id].resultJson, Unspecified)
               else Failed(PermissionDenied)
  {
    hide Inv, RecordOk, Apply, Fresh, Enforce, WithinRetention;
    var end := After(env, sv, run);
    SurvivesIff(env, sv, run, id);
    TokensNeverMove(env, sv, run, token, id);
    if id in end.sessions {
      SettledRun(env, sv, run, id);
      EnforceSettled(env.options, end.sessions[id], later);
    }
  }
}
